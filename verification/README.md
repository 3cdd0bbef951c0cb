# Plate recognition consolidation core, in Dafny

A model of the decision logic of `plaka_tanima.py`, a licence-plate pipeline.
For every video frame it does the following:

- It runs a detector on the upright frame and, when rotation is enabled, on the 90, -90 and 180 degree views.
- It keeps the raw boxes that are confident enough and lie strictly inside the frame.
- It crops each box and gates it on confidence 0.55 and clarity 100.
- It reads the plate text with OCR.
- It resolves the plate's identity against the registry of known plates: by exact text, or by image similarity when no text was read.
- It keeps the clearest view of each identity.
- It feeds a per-plate speed estimator.
- It writes the view to an SQLite table keyed by plate text.
- It maps boxes found in a rotated view back onto the frame.

The detector, `rotate_image`, the clarity score, tesseract, image
similarity, the clock and the keys pressed are parameters of the model (`Pipeline.Env`).

Modules:

- `Wrappers`: the `Option` type.
- `PlateText`: the OCR post-filter, decimal rendering and the `UNKNOWN_n` placeholder.
- `Geometry`: Python's truncating `int()`, the raw-box filter, the save gate, numpy-style cropping and the rotated-box remap.
- `Speed`: `SpeedDetector`.
- `Identity`: the plate registry, `get_unique_plate_id` and the registry side of `save_plate_image`.
- `Store`: the upsert of `ImageDatabase.save_cv2_image`.
- `Pipeline`: `process_detections` and the frame loop.

Registry ids are the counter values, so plate `n` stands for the key `PLATE{n:03d}`.
`Store.PlateLabelInjective` shows that this renaming loses nothing.
The registry is an insertion-ordered id sequence plus a map, because the
"first match" of `get_unique_plate_id` follows the order of the dict.

## Model

| member | source | states |
|---|---|---|
| PlateText.RemoveSpaces | plaka_tanima.py:421 | `''.join(text.split())` leaves no whitespace, only drops characters, and keeps every character it returns from the input |
| PlateText.RemoveSpacesConcat | plaka_tanima.py:421 | removing whitespace distributes over concatenation |
| PlateText.RemoveSpacesFixedPoint | plaka_tanima.py:421 | removing whitespace changes nothing exactly when there is none |
| PlateText.TrimLeftKeepsContent | plaka_tanima.py:418 | `lstrip` then whitespace removal is whitespace removal |
| PlateText.TrimRightKeepsContent | plaka_tanima.py:418 | `rstrip` then whitespace removal is whitespace removal |
| PlateText.StripIsRedundant | plaka_tanima.py:418-421 | the `.strip()` before the split-join does not change the result |
| PlateText.ExtractPlateText | plaka_tanima.py:418-430 | a reading is kept exactly when its whitespace-free form has 4 to 15 characters, and that form is the result; a failed reading gives none |
| PlateText.CleanReadingPasses | plaka_tanima.py:421-430 | a whitespace-free reading of 4 to 15 characters comes back unchanged |
| PlateText.ExtractIsIdempotent | plaka_tanima.py:418-430 | filtering a filtered reading changes nothing |
| PlateText.Decimal | plaka_tanima.py:552 | `str(n)` is a non-empty string of digits, one digit exactly below 10, and starting with '0' only for zero, so with the round trip it is the canonical decimal form |
| PlateText.DecimalRoundTrip | plaka_tanima.py:552 | reading `str(n)` back gives `n` |
| PlateText.DecimalInjective | plaka_tanima.py:552 | distinct numbers render differently |
| PlateText.Placeholder | plaka_tanima.py:552 | `UNKNOWN_{n}` starts with the `UNKNOWN_` prefix |
| PlateText.PlaceholderInjective | plaka_tanima.py:552 | distinct numbers give distinct placeholders |
| PlateText.NoUnderscoreNoPlaceholder | plaka_tanima.py:552 | a reading without `_`, which the tesseract whitelist guarantees, never looks like a placeholder |
| Geometry.Trunc | plaka_tanima.py:695 | `int(x)` rounds toward zero, on both signs |
| Geometry.TruncMonotone | plaka_tanima.py:695 | truncation keeps order |
| Geometry.AcceptBox | plaka_tanima.py:687-699 | a raw box is used exactly when its confidence reaches the threshold and its truncated corners satisfy `0 <= x1 < x2 < w`, `0 <= y1 < y2 < h`; the box used is the truncated one |
| Geometry.AcceptedRawCorners | plaka_tanima.py:695-699 | the raw corners of an accepted box lie in `(-1, w)` and `(-1, h)`, in order |
| Geometry.NegativeFractionAccepted | plaka_tanima.py:695-699 | a corner at `-0.5` truncates to `0` and the box is accepted |
| Geometry.Crop | plaka_tanima.py:705-709 | `img[y1:y2, x1:x2]` of an in-frame box has `y2-y1` rows of `x2-x1` pixels, the pixels of the box |
| Geometry.Slice | plaka_tanima.py:705-709 | numpy slicing is the plain slice for in-range bounds, the tail when only the end is past the length, and empty when the start is at or past the length or the end is not after the start |
| Geometry.Clamp | plaka_tanima.py:769-772 | `max(0, min(hi, v))` is `v` inside `[0, hi]`, `0` below it and `hi` above it |
| Geometry.ClampMonotone | plaka_tanima.py:769-772 | clamping keeps order |
| Geometry.ClampBoxKeepsOrder | plaka_tanima.py:769-772 | clamping keeps `x1 <= x2` and `y1 <= y2` |
| Geometry.Remap | plaka_tanima.py:743-774 | for 90, -90 and 180 the box is the angle's closed form with each corner clamped into `[0,w-1]x[0,h-1]` (a corner past the border lands on it), keeping corner order for ordered boxes; other angles leave the box as it is |
| Geometry.HalfTurnInvolution | plaka_tanima.py:759-764 | the 180 degree closed form undone by itself is the identity |
| Geometry.QuarterTurnsCompose | plaka_tanima.py:747-758 | the -90 form after the 90 form shifts x by `h-w`; it is the identity exactly when `w == h` |
| Geometry.HalfTurnRemapRoundTrip | plaka_tanima.py:759-774 | remapping an in-frame box by 180 twice returns it exactly when `x1 >= 1` and `y1 >= 1` |
| Speed.SpeedOverMeaning | plaka_tanima.py:58-63 | the speed is the one that covers the distance in `gap/fps` seconds, in km/h |
| Speed.CalculateSpeed | plaka_tanima.py:39-77 | a speed is produced exactly for two or more frames, a first-to-last gap of at least 5 and a result of at most 200; otherwise the tracker is unchanged; a produced speed is stored for that plate |
| Speed.AddDetection | plaka_tanima.py:24-37 | appends the frame to that plate's list only, and stores a speed exactly when the extended list produces one |
| Speed.AddDetectionKeepsPlausible | plaka_tanima.py:66-72 | no stored speed ever exceeds 200 km/h |
| Speed.AddDetectionIsLocal | plaka_tanima.py:24-37 | other plates' frames and speeds are untouched |
| Speed.OnlyEndpointsMatter | plaka_tanima.py:48-52 | only the first and last frames decide the result |
| Speed.WorkedExample | plaka_tanima.py:39-77 | 30 fps, 15 m, frames 10 and 40 give 54 km/h |
| Speed.ShortGapExample | plaka_tanima.py:55-56 | frames 10 and 11 give no speed |
| Speed.ImplausibleIsDiscarded | plaka_tanima.py:66-69 | frames 10 and 15 give 324 km/h, which is discarded and stores nothing; a later frame 40 gives 54 km/h, which is stored |
| Speed.NewTracker | plaka_tanima.py:17-22 | a new detector keeps the frame rate and distance it is given and has no frames and no speed for any plate |
| Speed.GetSpeed | plaka_tanima.py:79-83 | `plate_speeds.get(plate_id)`: a speed exactly for a plate that has one, and then the stored one |
| Identity.EmptyRegistryWf | plaka_tanima.py:530-541 | the registry starts empty with counter 1 |
| Identity.FirstMatch | plaka_tanima.py:452-463 | finds the first position whose id passes the test, or reports that none does |
| Identity.FirstMatchAt | plaka_tanima.py:452-463 | a passing position with no passing position before it is the one found |
| Identity.Resolve | plaka_tanima.py:442-466 | with a text, the first plate storing exactly that text, and images are not consulted; without one, the first plate in creation order whose image is similar; no match gives `(None, False, text)` |
| Identity.ResolveFindsFirst | plaka_tanima.py:452-463 | the first plate in creation order that passes is the one resolved |
| Identity.TextResolutionIgnoresImages | plaka_tanima.py:460-466 | with a text the image and the similarity test do not matter |
| Identity.EmptyRegistryResolvesNew | plaka_tanima.py:451-466 | nothing matches in an empty registry |
| Identity.Save | plaka_tanima.py:544-642 | a new plate gets the counter as id and the counter moves on by one; a match keeps ids, order and counter; only the returned plate's record changes |
| Identity.Create | plaka_tanima.py:611-642 | a new record under the counter, appended to the order; the counter was no id in use |
| Identity.Merge | plaka_tanima.py:566-609 | a strictly clearer view replaces the whole record and is written; otherwise only a present, different speed is taken and nothing is written |
| Identity.SaveKeepsClarity | plaka_tanima.py:568 | no stored clarity ever decreases |
| Identity.SaveReplacesWhole | plaka_tanima.py:568-605 | fields are replaced together only on strictly greater clarity; otherwise only the speed may change, to a present speed |
| Identity.SaveFeedsTrackerUnderId | plaka_tanima.py:556-560 | the tracker is fed under the id the save returns, and a written record carries the tracker's speed for it |
| Identity.SaveWritesWhenStored | plaka_tanima.py:586-625 | the database is called for a new plate and for a clearer view, with the record stored |
| Identity.RelabelKeepsTextInvariant | plaka_tanima.py:589-598 | giving one plate a text no other plate holds keeps stored texts distinct |
| Identity.SameTextKeepsTextInvariant | plaka_tanima.py:602-605 | a speed-only update keeps stored texts distinct |
| Identity.LabelIsFresh | plaka_tanima.py:551-552 | with placeholders numbered by their own plate, the text a save stores is held by no other plate |
| Identity.PlaceholderNumber | plaka_tanima.py:551-552 | the source's numbering takes `plate_id_counter` whatever the match; the corrected one takes the matched plate's id, and the counter only for a new plate |
| Identity.Label | plaka_tanima.py:551-552 | with `use_ocr` and no reading the text is the placeholder `UNKNOWN_n` of the chosen number, otherwise the reading itself; with `use_ocr` every plate has a text, and a text stored without a reading is a placeholder |
| Identity.SpeedKey | plaka_tanima.py:558 | the speed tracker's key is the matched plate's id, or the counter that a new plate will take |
| Identity.SaveKeepsTextsDistinct | plaka_tanima.py:544-642 | with placeholders numbered by their own plate, no two plates ever store the same text |
| Identity.RelabelKeepsReadingsDistinct | plaka_tanima.py:589-598 | giving one plate a text that no other plate holds as a reading keeps read texts distinct |
| Identity.ReadingIsFresh | plaka_tanima.py:442-466 | under either numbering, a read text a save stores is held by no other plate, because the text is looked up by exact match first |
| Identity.SaveKeepsReadingsDistinct | plaka_tanima.py:544-642 | under either numbering, including the program's, no two plates store the same read text; only placeholders can collide |
| Identity.TextInvariantHasReadingsDistinct | plaka_tanima.py:544-642 | distinct texts with owned placeholders imply distinct read texts |
| Identity.TraceStep1 | plaka_tanima.py:611-642 | the first text-less sighting creates plate 1 as `UNKNOWN_1` |
| Identity.TraceStep2 | plaka_tanima.py:566-598 | a similar, clearer sighting relabels plate 1 as `UNKNOWN_2` |
| Identity.TraceStep3 | plaka_tanima.py:611-642 | a dissimilar sighting creates plate 2, also as `UNKNOWN_2` |
| Identity.CounterPlaceholderCollides | plaka_tanima.py:551-552 | as written, two plates end up storing the same text |
| Identity.StillFoundFirst | plaka_tanima.py:452-463 | a plate stays the first match after an update of that plate alone |
| Identity.SaveIsFoundAgain | plaka_tanima.py:544-642 | after a save the same detection resolves to the saved plate, which is at least as clear |
| Identity.ResaveIsIdempotent | plaka_tanima.py:544-642 | saving the same detection again creates nothing, writes nothing and changes nothing but the speed |
| Store.PlateLabel | plaka_tanima.py:612 | `PLATE{n:03d}` is `PLATE` followed by at least 3 characters, all of them digits |
| Store.PaddedDigits | plaka_tanima.py:612 | zero padding a digit string gives a digit string |
| Store.PadZeros | plaka_tanima.py:612 | zero padding to a width keeps the digits at the end |
| Store.LeadingZeroIgnored | plaka_tanima.py:612 | a leading zero does not change the number read |
| Store.PaddingParsesBack | plaka_tanima.py:612 | padding does not change the number read |
| Store.PlateLabelInjective | plaka_tanima.py:612 | distinct plate numbers get distinct labels |
| Store.EmptyTableWf | plaka_tanima.py:92-106 | an empty table has sound row ids |
| Store.SaveImage | plaka_tanima.py:195-245 | only the key written changes; rows are only added; nothing is returned exactly when a generated text is already taken, and then nothing changes; a returned row id is the row of the key |
| Store.SaveImageUpdates | plaka_tanima.py:197-217 | a known text at least as clear keeps everything but the speed, which changes only when one is given; a strictly clearer view overwrites image, clarity, confidence, rotation, path and speed together, speed even when `None`; the row id is returned |
| Store.SaveImageInserts | plaka_tanima.py:218-234 | an unknown or generated text gets a new row with the next row id |
| Store.SaveImageKeepsWf | plaka_tanima.py:218-234 | row ids stay distinct and below the next one |
| Store.SaveImageKeepsClarity | plaka_tanima.py:202-217 | no stored clarity decreases and no row changes its id |
| Store.SaveImageStoresAtLeast | plaka_tanima.py:197-225 | after a write with a text, that text's row is at least as clear as the view written |
| Store.AutoText | plaka_tanima.py:228 | a generated text is `PLATE_`, the plate label, `_`, then only digits |
| Store.AutoTextInjective | plaka_tanima.py:228 | two generated texts for one plate differ whenever their clocks do |
| Store.KeyOf | plaka_tanima.py:197-228 | a write is stored under its text when that is truthy, otherwise under the generated text; never under the empty text |
| Pipeline.SaveDetection | plaka_tanima.py:544-642 | under either numbering: a duplicate is exactly a plate filed before; a new plate takes the counter; registry growth, soundness and distinct read texts are kept; under `ByIdentity` with a reading that is no placeholder all texts stay distinct; the view is filed under the plate it resolves to, which afterwards is at least as clear as the view, and the tracker is fed under that id exactly when speed is measured |
| Pipeline.StepKeepsSound | plaka_tanima.py:556-625 | a registry step that changes one plate, writes its record or keeps its text and clarity, and leaves a plausible tracker keeps the state sound |
| Pipeline.SaveKeepsSound | plaka_tanima.py:556-625 | under either numbering, stored speeds stay plausible, the tracker only tracks filed plates, row ids stay sound, and every filed text keeps a row at least as clear as its plate |
| Pipeline.SaveKeepsTexts | plaka_tanima.py:544-642 | under `ByIdentity`, a save whose reading is no placeholder keeps all texts distinct |
| Pipeline.SaveKeepsReadings | plaka_tanima.py:544-642 | under either numbering, a save keeps read texts distinct |
| Pipeline.MirrorOfKeptPlate | plaka_tanima.py:602-605 | a plate that kept its view keeps its row |
| Pipeline.CleanReadingIsNoPlaceholder | plaka_tanima.py:417-430 | a reading under the whitelist never looks like a placeholder |
| Pipeline.ProgressTransitive | plaka_tanima.py:544-642 | registry growth composes |
| Pipeline.TextsKeptTransitive | plaka_tanima.py:646-779 | the text guarantees of consecutive steps compose |
| Pipeline.ProcessBox | plaka_tanima.py:686-729 | a box is reported exactly when it passes the threshold, the frame bounds and the save gate; otherwise nothing changes; a reported box carries its truncated box, confidence, crop clarity and angle, and the plate the crop and its reading resolve to, new ones numbered by the counter; that plate afterwards holds a view at least as clear, and the tracker is fed under its id exactly when speed is measured |
| Pipeline.ConsGated | plaka_tanima.py:729 | putting a gated sighting whose plate is at least as clear in front keeps all gated |
| Pipeline.Spots | plaka_tanima.py:719-728 | a spot per sighting |
| Pipeline.SpotsAppend | plaka_tanima.py:735-776 | the spots of joined sightings are the joined spots |
| Pipeline.Expected | plaka_tanima.py:686-731 | the reference for a view: the spots of the boxes that pass, in detector order, at most one per box, all at the view's angle |
| Pipeline.ExpectedKeepsAll | plaka_tanima.py:686-731 | every box is reported exactly when every box passes |
| Pipeline.ConsSpots | plaka_tanima.py:686-731 | one more box adds its spot in front exactly when it passes |
| Pipeline.ProcessBoxes | plaka_tanima.py:682-731 | every box that passes is filed and reported, in detector order, and nothing else: the reported spots are exactly the reference's, which no registry state enters; each names a filed plate at least as clear as the sighting |
| Pipeline.UnrotatedIsReported | plaka_tanima.py:743-774 | a gated box remapped at any angle lies on the canvas |
| Pipeline.RemappedIsReported | plaka_tanima.py:743-774 | every sighting of a view, remapped, lies on the canvas and still names a plate at least as clear |
| Pipeline.Moved | plaka_tanima.py:743-776 | remapping keeps the number of spots |
| Pipeline.RemappedSpots | plaka_tanima.py:743-776 | remapping sightings remaps their spots |
| Pipeline.AppendReported | plaka_tanima.py:735-776 | appending the sightings of later views keeps all reported, against the later registry |
| Pipeline.ViewReport | plaka_tanima.py:734-776 | the reference for a view: its passing boxes mapped back onto the frame, at the view's angle |
| Pipeline.ProcessView | plaka_tanima.py:734-776 | a view reports exactly its reference spots, all passing the gates and on the frame's canvas, each naming a filed plate at least as clear |
| Pipeline.Angles | plaka_tanima.py:666-675 | the upright view first, then exactly the rotations 90, -90 and 180 in that order when enabled, and no other view when not |
| Pipeline.ProcessViews | plaka_tanima.py:734-776 | the views report, in order, exactly the reference spots of each view, all gated and on the canvas, each naming a filed plate at least as clear |
| Pipeline.ProcessFrame | plaka_tanima.py:646-779 | one frame keeps the registry growing and the state sound, and reports exactly the reference spots of its views, fixed by the frame whatever the registry holds |
| Pipeline.Start | plaka_tanima.py:521-541 | the loop starts with no plates and an empty tracker |
| Pipeline.StartIsSound | plaka_tanima.py:521-541 | the starting state is ready, sound and has distinct texts |
| Pipeline.KeyAfter | plaka_tanima.py:838-849 | a key is read only when the video is displayed; otherwise no key acts |
| Pipeline.NextConfig | plaka_tanima.py:849-854 | 'r' flips `enable_rotation` for the next frame, any other key keeps it, and no other field of the configuration changes |
| Pipeline.Run | plaka_tanima.py:647-858 | over a video: no frames leave the state as it is, and 'q' after the first frame ends the run with that frame processed (the whole schedule is `Pipeline.RunIsReplay`); throughout, plates are only added and never get blurrier, stored speeds stay at most 200, every filed text keeps a row at least as clear, read texts stay distinct, and under `ByIdentity` all texts stay distinct |
| Pipeline.Keys | plaka_tanima.py:849 | the key read after each of `n` frames, in order |
| Pipeline.Rotations | plaka_tanima.py:647-854 | the frames the loop reaches and the rotation flag of each, from the keys alone: the first frame has the starting flag; every frame but the last is followed by a key other than 'q', and 'r' flips the next frame's flag; the run ends early only after 'q' |
| Pipeline.Replay | plaka_tanima.py:647-779 | the frames processed in order with given rotation flags and no key read, keeping the state ready and the registry growing |
| Pipeline.RunIsReplay | plaka_tanima.py:647-858 | the loop's end state is exactly the replay of the frames `Rotations` reaches with its flags: every frame up to the first 'q' is processed, in order, with 'r' toggling rotation between frames |
| Pipeline.RunStep | plaka_tanima.py:647-858 | one frame of the loop: the frame is processed, then 'q' stops and any other key goes on with the next configuration |
| Pipeline.RunVideo | plaka_tanima.py:645-858 | a whole run from the empty registry, frames numbered from 1, ends sound with distinct read texts; with `ByIdentity` and a whitelisted reader every stored text is distinct |

## Left out

- `calculate_clarity_score` and `calculate_image_similarity` (plaka_tanima.py:347-399) are OpenCV and numpy floating-point numerics. They are the parameters `Env.clarity` and `Env.similar`.
- `rotate_image`, the YOLO calls and the tesseract call with its preprocessing are foreign library calls. They are `Env.rotate`, `Env.detect` and `Env.ocr`. An OCR failure, including the `ImportError` and exception paths, is `Env.ocr` returning `None`.
- The loop's plumbing is left out because it has no effect on the state: video capture, FPS printing, display and drawing, `detected_something`, and the `plate_detections` display list, which is also all the 'c' key clears. The 'q' and 'r' keys are modelled (`Env.key`, `Pipeline.NextConfig`).
- Python floats are modelled as exact reals: the speed arithmetic (plaka_tanima.py:59-66), the confidence and clarity comparisons (plaka_tanima.py:689, 715, 568) and the clarity comparison of `save_cv2_image` (plaka_tanima.py:202). Rounding is not modelled, so a comparison that floating point decides differently at the last bit is decided exactly.
- Files are left out: `cv2.imwrite`, `os.remove` and file names. The loop is modelled in `db_only` mode, so every path is `None`.
- The SQL and BLOB side of `ImageDatabase` is left out: PNG encoding, `save_image` (it reads from disk), `get_image`, `list_plates`, `delete_entry`, `close` and the capture date.
- `update_speed` decides by SQL rowcount. The speed-only path of `save_plate_image` therefore leaves the table unchanged in the model.
- The `IntegrityError` fallback of `save_cv2_image` with a text is not modelled. It cannot arise: the text is looked up first and a single thread writes the table. The fallback without a text (a generated text already taken) is modelled.
- `Pipeline.Run` reads the clock once per frame (`Env.clock`), not once per database call.
- `parse_arguments` and all of `arayuz.py` are left out. They are a command line and a Tkinter viewer with no algorithmic core.
- `Speed.CalculateSpeed` requires `fps > 0`, because the source divides by the frame rate. A zero frame rate from the video raises in the source.
- The rotation round trip is not a property of this code. Composing the 90 and -90 forms shifts x by `h - w`, and clamping at the border breaks the 180 case. `Geometry.QuarterTurnsCompose` and `Geometry.HalfTurnRemapRoundTrip` state the exact conditions instead.
- Pipeline.Run: under `Identity.ByCounter`, the numbering the program uses, only read texts are promised to stay distinct. Placeholders can collide, as `Identity.CounterPlaceholderCollides` shows.
- Identity.ResaveIsIdempotent: states idempotence of re-saving one detection. It does not cover a whole frame re-fed. With several detections per frame, a later detection may have replaced a plate's image with a similar view, and image similarity is not transitive.

## Findings

| source | as written | input that shows it | evidently intended | confidence | as-written member | corrected member |
|---|---|---|---|---|---|---|
| plaka_tanima.py:551-552 | the `UNKNOWN_{plate_id_counter}` placeholder is numbered with the counter also when an existing plate is updated, and the counter is then the number of the next new plate | with `use_ocr` on and no text read: a first sighting creates PLATE001 as `UNKNOWN_1`; a similar, clearer sighting relabels PLATE001 as `UNKNOWN_2`; a dissimilar one creates PLATE002, also `UNKNOWN_2`. Two identities now share a text, which is the table's UNIQUE key: `save_cv2_image` finds PLATE001's clearer `UNKNOWN_2` row and stores nothing of PLATE002 | a placeholder carries the number of the plate it labels, so stored texts stay distinct | not executed | Identity.CounterPlaceholderCollides | Identity.SaveKeepsTextsDistinct |

The loop (`Pipeline.Run`) takes the numbering as a parameter.
With the numbering as written (`Identity.ByCounter`) it keeps read texts distinct (`Identity.SaveKeepsReadingsDistinct`).
With the corrected numbering (`Identity.ByIdentity`) it keeps every stored text distinct (`Identity.SaveKeepsTextsDistinct`).
