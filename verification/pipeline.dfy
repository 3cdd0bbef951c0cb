/**
 The per-frame loop of `run_video_detection`: detect on the upright frame
 and, with rotation enabled, on the 90, -90 and 180 degree views; filter
 each raw box (`process_detections`), crop it, gate it on confidence and
 clarity, read its text, file it in the registry and the database, and
 map the boxes found in a rotated view back onto the frame. The loop is
 parameterised by the placeholder numbering: `ByCounter` is the program,
 `ByIdentity` the corrected one.
 */
module Pipeline {
  import opened Wrappers
  import opened Geometry
  import opened PlateText
  import opened Speed
  import opened Identity
  import opened Store

  /**
   What the model takes from foreign code: the YOLO detector on a view,
   `rotate_image`, `calculate_clarity_score`, the tesseract reading,
   `calculate_image_similarity`, `int(time.time())` at a frame, and the
   key `cv2.waitKey` reports after a frame.
   */
  datatype Env = Env(
    detect: Image -> seq<RawBox>,
    rotate: (Image, int) -> Image,
    clarity: Image -> real,
    ocr: Image -> Option<string>,
    similar: (Image, Image) -> bool,
    clock: int -> nat,
    key: int -> Key)

  /** The keys the loop reacts to: 'q' ends it, 'r' flips `enable_rotation`. */
  datatype Key = Quit | ToggleRotation | OtherKey

  /**
   The command-line switches the loop reads (`db_only` is on: no file
   paths). `rotation` is `enable_rotation` as the next frame sees it.
   */
  datatype Config = Config(confThreshold: real, useOcr: bool, measureSpeed: bool, rotation: bool, display: bool)

  /** Everything a frame changes: the registry, the speed tracker and the table. */
  datatype State = State(reg: Registry, tracker: Tracker, table: Table)

  /** One entry of `processed_results`, apart from the crop itself. */
  datatype Sighting = Sighting(
    id: PlateId,
    conf: real,
    clarity: real,
    coords: Box,
    rotation: int,
    rotated: bool,
    duplicate: bool)

  function OptionsOf(cfg: Config): Options {
    Options(cfg.useOcr, cfg.measureSpeed)
  }

  /** What a save needs of the state. */
  ghost predicate Ready(cfg: Config, st: State) {
    Identity.Wf(st.reg) && (cfg.measureSpeed ==> st.tracker.fps > 0.0)
  }

  /** The row `save_cv2_image` receives for a write, under the `PLATE{n:03d}` label. */
  function EntryOf(w: Write): Entry {
    Entry(PlateLabel(w.plateId), w.image, w.clarity, w.conf, w.rotation, None, w.speed)
  }

  /** The table after the database call of a save, if the save made one. */
  function TableAfter(t: Table, write: Option<Write>, now: nat): Table {
    match write
    case Some(w) => SaveImage(t, EntryOf(w), w.text, now).table
    case None => t
  }

  /** Registry growth over a run: plates are only added, in order, and never get blurrier. */
  ghost predicate Progress(a: Registry, b: Registry) {
    && a.plates.Keys <= b.plates.Keys
    && a.order <= b.order
    && a.counter <= b.counter
    && forall id :: id in a.plates ==> b.plates[id].clarity >= a.plates[id].clarity
  }

  lemma ProgressTransitive(a: Registry, b: Registry, c: Registry)
    requires Progress(a, b) && Progress(b, c)
    ensures Progress(a, c)
  {
  }

  /**
   What the loop keeps true beyond `Ready`: stored speeds are plausible,
   the tracker only tracks filed plates, row ids are sound, and every
   filed text has a row at least as clear as the plate's view.
   */
  ghost predicate Sound(st: State) {
    && Plausible(st.tracker)
    && st.tracker.frames.Keys <= st.reg.plates.Keys
    && Store.Wf(st.table)
    && Mirrored(st.reg, st.table)
  }

  ghost predicate Mirrored(reg: Registry, t: Table) {
    forall id :: id in reg.plates && HasText(reg.plates[id].text) ==>
      && reg.plates[id].text.value in t.rows
      && t.rows[reg.plates[id].text.value].clarity >= reg.plates[id].clarity
  }

  /** A text reading with no underscore in it, as tesseract's whitelist ensures. */
  ghost predicate OcrClean(env: Env) {
    forall img :: env.ocr(img).Some? ==> '_' !in env.ocr(img).value
  }

  lemma CleanReadingIsNoPlaceholder(env: Env, img: Image)
    ensures OcrClean(env) && ExtractPlateText(env.ocr(img)).Some? ==>
      !IsPlaceholder(ExtractPlateText(env.ocr(img)).value)
  {
    if OcrClean(env) && ExtractPlateText(env.ocr(img)).Some? {
      NoUnderscoreNoPlaceholder(ExtractPlateText(env.ocr(img)).value);
    }
  }

  /** The mirror of a plate that kept its view. */
  lemma MirrorOfKeptPlate(reg: Registry, r: Registry, t: Table, u: Table, id: PlateId)
    requires Mirrored(reg, t) && id in reg.plates && id in r.plates
    requires r.plates[id].text == reg.plates[id].text && r.plates[id].clarity == reg.plates[id].clarity
    requires forall k :: k in t.rows ==> k in u.rows && u.rows[k].clarity >= t.rows[k].clarity
    ensures HasText(r.plates[id].text) ==>
      r.plates[id].text.value in u.rows && u.rows[r.plates[id].text.value].clarity >= r.plates[id].clarity
  {
  }

  /**
   A registry step that changes one plate, with the tracker it leaves and
   the write it makes, keeps the state sound; a step that writes nothing
   keeps that plate's text and clarity.
   */
  lemma StepKeepsSound(st: State, reg: Registry, tracker: Tracker, id: PlateId, write: Option<Write>, now: nat)
    requires Sound(st)
    requires id in reg.plates && reg.plates == st.reg.plates[id := reg.plates[id]]
    requires Plausible(tracker) && tracker.frames.Keys <= reg.plates.Keys
    requires write.Some? ==> write.value == WriteOf(id, reg.plates[id])
    requires write.None? ==>
      && id in st.reg.plates
      && reg.plates[id].text == st.reg.plates[id].text
      && reg.plates[id].clarity == st.reg.plates[id].clarity
    ensures Sound(State(reg, tracker, TableAfter(st.table, write, now)))
  {
    var u := TableAfter(st.table, write, now);
    assert forall k :: k in st.table.rows ==> k in u.rows && u.rows[k].clarity >= st.table.rows[k].clarity by {
      if write.Some? {
        SaveImageKeepsClarity(st.table, EntryOf(write.value), write.value.text, now);
      }
    }
    if write.Some? {
      var w := write.value;
      SaveImageKeepsWf(st.table, EntryOf(w), w.text, now);
      if HasText(w.text) {
        SaveImageStoresAtLeast(st.table, EntryOf(w), w.text, now);
      }
    } else {
      MirrorOfKeptPlate(st.reg, reg, st.table, u, id);
    }
    forall k | k in reg.plates && HasText(reg.plates[k].text)
      ensures reg.plates[k].text.value in u.rows
      ensures u.rows[reg.plates[k].text.value].clarity >= reg.plates[k].clarity
    {
      if k != id {
        MirrorOfKeptPlate(st.reg, reg, st.table, u, k);
      }
    }
  }

  /** A save with its database call keeps the state sound, under either numbering. */
  lemma SaveKeepsSound(l: Labelling, cfg: Config, st: State, d: Candidate, text: Option<string>, frameNum: int,
                       now: nat, similar: (Image, Image) -> bool)
    requires Ready(cfg, st)
    ensures var o := Save(l, st.reg, st.tracker, OptionsOf(cfg), d, frameNum, text, similar);
      Sound(st) ==> Sound(State(o.reg, o.tracker, TableAfter(st.table, o.write, now)))
  {
    var o := Save(l, st.reg, st.tracker, OptionsOf(cfg), d, frameNum, text, similar);
    if Sound(st) {
      SaveFeedsTrackerUnderId(l, st.reg, st.tracker, OptionsOf(cfg), d, frameNum, text, similar);
      SaveReplacesWhole(l, st.reg, st.tracker, OptionsOf(cfg), d, frameNum, text, similar);
      SaveWritesWhenStored(l, st.reg, st.tracker, OptionsOf(cfg), d, frameNum, text, similar);
      if cfg.measureSpeed {
        AddDetectionKeepsPlausible(st.tracker, o.id, frameNum);
      }
      StepKeepsSound(st, o.reg, o.tracker, o.id, o.write, now);
    }
  }

  /** Under `ByIdentity`, a save whose reading is no placeholder keeps texts distinct. */
  lemma SaveKeepsTexts(cfg: Config, st: State, d: Candidate, text: Option<string>, frameNum: int,
                       similar: (Image, Image) -> bool)
    requires Ready(cfg, st)
    ensures TextInvariant(st.reg) && (text.Some? ==> !IsPlaceholder(text.value)) ==>
      TextInvariant(Save(ByIdentity, st.reg, st.tracker, OptionsOf(cfg), d, frameNum, text, similar).reg)
  {
    if TextInvariant(st.reg) && (text.Some? ==> !IsPlaceholder(text.value)) {
      SaveKeepsTextsDistinct(st.reg, st.tracker, OptionsOf(cfg), d, frameNum, text, similar);
    }
  }

  /** Under either numbering, a save keeps read texts distinct. */
  lemma SaveKeepsReadings(l: Labelling, cfg: Config, st: State, d: Candidate, text: Option<string>, frameNum: int,
                          similar: (Image, Image) -> bool)
    requires Ready(cfg, st)
    ensures ReadingsDistinct(st.reg) ==>
      ReadingsDistinct(Save(l, st.reg, st.tracker, OptionsOf(cfg), d, frameNum, text, similar).reg)
  {
    if ReadingsDistinct(st.reg) {
      SaveKeepsReadingsDistinct(l, st.reg, st.tracker, OptionsOf(cfg), d, frameNum, text, similar);
    }
  }

  /** What the loop keeps about texts: read texts distinct, and with `ByIdentity` all texts. */
  ghost predicate TextsKept(l: Labelling, env: Env, a: Registry, b: Registry) {
    && (ReadingsDistinct(a) ==> ReadingsDistinct(b))
    && (l == ByIdentity && OcrClean(env) && TextInvariant(a) ==> TextInvariant(b))
  }

  lemma TextsKeptTransitive(l: Labelling, env: Env, a: Registry, b: Registry, c: Registry)
    requires TextsKept(l, env, a, b) && TextsKept(l, env, b, c)
    ensures TextsKept(l, env, a, c)
  {
  }

  datatype Filed = Filed(st: State, id: PlateId, duplicate: bool)

  /**
   `save_plate_image` with its database call: the registry update, then
   `save_cv2_image` when the registry wrote a record.
   */
  function SaveDetection(l: Labelling, cfg: Config, st: State, d: Candidate, text: Option<string>, frameNum: int,
                         now: nat, similar: (Image, Image) -> bool): (r: Filed)
    requires Ready(cfg, st)
    ensures Ready(cfg, r.st)
    ensures r.id in r.st.reg.plates
    // a duplicate is a plate filed before; anything else is the next new plate
    ensures r.duplicate <==> r.id in st.reg.plates
    ensures !r.duplicate ==> r.id == st.reg.counter && r.st.reg.counter == st.reg.counter + 1
    ensures r.duplicate ==> r.st.reg.counter == st.reg.counter
    ensures Progress(st.reg, r.st.reg)
    ensures Sound(st) ==> Sound(r.st)
    ensures ReadingsDistinct(st.reg) ==> ReadingsDistinct(r.st.reg)
    ensures l == ByIdentity && TextInvariant(st.reg) && (text.Some? ==> !IsPlaceholder(text.value)) ==>
      TextInvariant(r.st.reg)
    // filed under the plate the view resolves to, and the view merged into it
    ensures r.id == SpeedKey(st.reg, Resolve(st.reg, d.image, text, similar))
    ensures r.st.reg.plates[r.id].clarity >= d.clarity
    ensures r.st.tracker == (if cfg.measureSpeed then AddDetection(st.tracker, r.id, frameNum) else st.tracker)
  {
    var o := Save(l, st.reg, st.tracker, OptionsOf(cfg), d, frameNum, text, similar);
    SaveFeedsTrackerUnderId(l, st.reg, st.tracker, OptionsOf(cfg), d, frameNum, text, similar);
    SaveReplacesWhole(l, st.reg, st.tracker, OptionsOf(cfg), d, frameNum, text, similar);
    SaveKeepsClarity(l, st.reg, st.tracker, OptionsOf(cfg), d, frameNum, text, similar);
    SaveKeepsSound(l, cfg, st, d, text, frameNum, now, similar);
    SaveKeepsReadings(l, cfg, st, d, text, frameNum, similar);
    SaveKeepsTexts(cfg, st, d, text, frameNum, similar);
    Filed(State(o.reg, o.tracker, TableAfter(st.table, o.write, now)), o.id, o.duplicate)
  }

  /**
   Whether `process_detections` files a raw box: above the threshold,
   strictly inside the frame, and past the save gate on the crop's
   clarity. Nothing of the registry enters.
   */
  predicate Passes(env: Env, cfg: Config, frame: Image, view: Image, d: RawBox) {
    && AcceptBox(d, cfg.confThreshold, Width(frame), Height(frame)).Some?
    && PassesSaveGate(d.conf, env.clarity(Crop(view, TruncBox(d))))
  }

  /** What a sighting has passed: both confidence thresholds, the clarity floor, the frame bounds. */
  predicate Gated(s: Sighting, cfg: Config, w: int, h: int) {
    && cfg.confThreshold <= s.conf && MinConfidence <= s.conf && MinClarity <= s.clarity
    && InsideFrame(s.coords, w, h)
  }

  /** Every sighting of a view passed the gates and names a filed plate at least as clear. */
  ghost predicate AllGated(seen: seq<Sighting>, cfg: Config, w: int, h: int, angle: int, reg: Registry) {
    forall i :: 0 <= i < |seen| ==>
      && Gated(seen[i], cfg, w, h)
      && seen[i].rotation == angle && seen[i].rotated == (angle != 0)
      && seen[i].id in reg.plates && reg.plates[seen[i].id].clarity >= seen[i].clarity
  }

  /** A view's sightings after one more box: its sighting, if any, in front. */
  function Prepend(s: Option<Sighting>, seen: seq<Sighting>): seq<Sighting> {
    match s
    case None => seen
    case Some(x) => [x] + seen
  }

  lemma ConsGated(s: Option<Sighting>, seen: seq<Sighting>, cfg: Config, w: int, h: int, angle: int, reg: Registry)
    requires s.Some? ==>
      && Gated(s.value, cfg, w, h) && s.value.rotation == angle && s.value.rotated == (angle != 0)
      && s.value.id in reg.plates && reg.plates[s.value.id].clarity >= s.value.clarity
    requires AllGated(seen, cfg, w, h, angle, reg)
    ensures AllGated(Prepend(s, seen), cfg, w, h, angle, reg)
  {
  }

  /** The part of a sighting the frame alone decides: box, confidence, clarity and angle. */
  datatype Spot = Spot(coords: Box, conf: real, clarity: real, rotation: int)

  function SpotOf(s: Sighting): Spot {
    Spot(s.coords, s.conf, s.clarity, s.rotation)
  }

  function Spots(seen: seq<Sighting>): (r: seq<Spot>)
    ensures |r| == |seen|
  {
    seq(|seen|, i requires 0 <= i < |seen| => SpotOf(seen[i]))
  }

  lemma SpotsAppend(a: seq<Sighting>, b: seq<Sighting>)
    ensures Spots(a + b) == Spots(a) + Spots(b)
  {
    assert forall i :: 0 <= i < |a| ==> (a + b)[i] == a[i];
    assert forall i :: |a| <= i < |a + b| ==> (a + b)[i] == b[i - |a|];
  }

  /**
   The reference for one view: the spot of every box that passes, in
   detector order, with the truncated box and the view's angle.
   */
  function Expected(env: Env, cfg: Config, frame: Image, view: Image, angle: int, ds: seq<RawBox>): (r: seq<Spot>)
    ensures |r| <= |ds|
    ensures forall i :: 0 <= i < |r| ==> r[i].rotation == angle
    decreases |ds|
  {
    if |ds| == 0 then []
    else
      var d := ds[0];
      var here := if Passes(env, cfg, frame, view, d)
        then [Spot(TruncBox(d), d.conf, env.clarity(Crop(view, TruncBox(d))), angle)]
        else [];
      here + Expected(env, cfg, frame, view, angle, ds[1..])
  }

  /** Every box passes exactly when every box is reported. */
  lemma {:induction false} ExpectedKeepsAll(env: Env, cfg: Config, frame: Image, view: Image, angle: int,
                                            ds: seq<RawBox>)
    ensures |Expected(env, cfg, frame, view, angle, ds)| == |ds| <==>
      forall i :: 0 <= i < |ds| ==> Passes(env, cfg, frame, view, ds[i])
    decreases |ds|
  {
    if |ds| > 0 {
      ExpectedKeepsAll(env, cfg, frame, view, angle, ds[1..]);
      assert forall i :: 1 <= i < |ds| ==> ds[1..][i - 1] == ds[i];
      if !Passes(env, cfg, frame, view, ds[0]) {
        assert |Expected(env, cfg, frame, view, angle, ds[1..])| <= |ds| - 1;
      }
    }
  }

  /** The spots of a view after one more box are that box's spot, if it passes, then the rest. */
  lemma ConsSpots(env: Env, cfg: Config, frame: Image, view: Image, angle: int, ds: seq<RawBox>,
                  s: Option<Sighting>, seen: seq<Sighting>)
    requires |ds| > 0
    requires s.Some? <==> Passes(env, cfg, frame, view, ds[0])
    requires s.Some? ==>
      SpotOf(s.value) == Spot(TruncBox(ds[0]), ds[0].conf, env.clarity(Crop(view, TruncBox(ds[0]))), angle)
    requires Spots(seen) == Expected(env, cfg, frame, view, angle, ds[1..])
    ensures Spots(Prepend(s, seen)) == Expected(env, cfg, frame, view, angle, ds)
  {
    if s.Some? {
      SpotsAppend([s.value], seen);
    }
  }

  datatype Step = Step(st: State, seen: Option<Sighting>)

  /**
   One raw box of `process_detections`: a box below the threshold or not
   strictly inside the frame, or one that fails the save gate, changes
   nothing; one that passes is filed and reported with its own box.
   */
  function ProcessBox(l: Labelling, env: Env, cfg: Config, st: State, frame: Image, view: Image, angle: int,
                      d: RawBox, frameNum: int): (r: Step)
    requires Ready(cfg, st)
    ensures Ready(cfg, r.st)
    ensures Progress(st.reg, r.st.reg)
    ensures Sound(st) ==> Sound(r.st)
    ensures TextsKept(l, env, st.reg, r.st.reg)
    ensures r.seen.Some? <==> Passes(env, cfg, frame, view, d)
    ensures r.seen.None? ==> r.st == st
    ensures r.seen.Some? ==>
      && Gated(r.seen.value, cfg, Width(frame), Height(frame))
      && SpotOf(r.seen.value) == Spot(TruncBox(d), d.conf, env.clarity(Crop(view, TruncBox(d))), angle)
      && r.seen.value.rotated == (angle != 0)
      && r.seen.value.id in r.st.reg.plates
      && (r.seen.value.duplicate <==> r.seen.value.id in st.reg.plates)
      && (!r.seen.value.duplicate ==> r.seen.value.id == st.reg.counter)
    // the plate the crop and its reading resolve to, holding a view at least as clear
    ensures r.seen.Some? ==>
      && r.seen.value.id == SpeedKey(st.reg, Resolve(st.reg, Crop(view, TruncBox(d)),
                                                     ExtractPlateText(env.ocr(Crop(view, TruncBox(d)))), env.similar))
      && r.st.reg.plates[r.seen.value.id].clarity >= r.seen.value.clarity
      && r.st.tracker == (if cfg.measureSpeed then AddDetection(st.tracker, r.seen.value.id, frameNum) else st.tracker)
  {
    match AcceptBox(d, cfg.confThreshold, Width(frame), Height(frame))
    case None => Step(st, None)
    case Some(b) =>
      var crop := Crop(view, b);
      var clarity := env.clarity(crop);
      if !PassesSaveGate(d.conf, clarity) then Step(st, None)
      else
        var text := ExtractPlateText(env.ocr(crop));
        CleanReadingIsNoPlaceholder(env, crop);
        var f := SaveDetection(l, cfg, st, Candidate(crop, clarity, d.conf, angle), text, frameNum,
                               env.clock(frameNum), env.similar);
        Step(f.st, Some(Sighting(f.id, d.conf, clarity, b, angle, angle != 0, f.duplicate)))
  }

  datatype Batch = Batch(st: State, seen: seq<Sighting>)

  /** `process_detections` over all boxes of one view, in detector order. */
  function ProcessBoxes(l: Labelling, env: Env, cfg: Config, st: State, frame: Image, view: Image, angle: int,
                        ds: seq<RawBox>, frameNum: int): (r: Batch)
    requires Ready(cfg, st)
    ensures Ready(cfg, r.st)
    ensures Progress(st.reg, r.st.reg)
    ensures Sound(st) ==> Sound(r.st)
    ensures TextsKept(l, env, st.reg, r.st.reg)
    ensures Spots(r.seen) == Expected(env, cfg, frame, view, angle, ds)
    ensures AllGated(r.seen, cfg, Width(frame), Height(frame), angle, r.st.reg)
    decreases |ds|
  {
    if |ds| == 0 then Batch(st, [])
    else
      var step := ProcessBox(l, env, cfg, st, frame, view, angle, ds[0], frameNum);
      var rest := ProcessBoxes(l, env, cfg, step.st, frame, view, angle, ds[1..], frameNum);
      ProgressTransitive(st.reg, step.st.reg, rest.st.reg);
      TextsKeptTransitive(l, env, st.reg, step.st.reg, rest.st.reg);
      ConsGated(step.seen, rest.seen, cfg, Width(frame), Height(frame), angle, rest.st.reg);
      ConsSpots(env, cfg, frame, view, angle, ds, step.seen, rest.seen);
      Batch(rest.st, Prepend(step.seen, rest.seen))
  }

  /** The view an angle stands for: the frame itself, or `rotate_image(frame, angle)`. */
  function ViewOf(env: Env, frame: Image, angle: int): Image {
    if angle == 0 then frame else env.rotate(frame, angle)
  }

  /** A sighting of the view rotated by `angle` with its box mapped back onto the frame. */
  function Unrotated(s: Sighting, angle: int, w: int, h: int): Sighting {
    s.(coords := Remap(angle, s.coords, w, h))
  }

  /** What a reported sighting keeps after the remap: gates passed, box on the canvas. */
  predicate Reported(s: Sighting, cfg: Config, w: int, h: int) {
    && cfg.confThreshold <= s.conf && MinConfidence <= s.conf && MinClarity <= s.clarity
    && InCanvas(s.coords, w, h)
  }

  /** Remapping a gated sighting keeps it on the canvas. */
  lemma UnrotatedIsReported(s: Sighting, angle: int, cfg: Config, w: int, h: int)
    requires Gated(s, cfg, w, h)
    ensures Reported(Unrotated(s, angle, w, h), cfg, w, h)
    ensures Unrotate(angle, s.coords, w, h).None? ==> Unrotated(s, angle, w, h) == s
  {
  }

  /** Every sighting of some views passed the gates, lies on the canvas and names a filed plate at least as clear. */
  ghost predicate AllReported(seen: seq<Sighting>, cfg: Config, w: int, h: int, angles: seq<int>, reg: Registry) {
    forall i :: 0 <= i < |seen| ==>
      && Reported(seen[i], cfg, w, h)
      && seen[i].rotation in angles
      && seen[i].id in reg.plates && reg.plates[seen[i].id].clarity >= seen[i].clarity
  }

  /** The sightings of one view with their boxes on the frame's canvas. */
  function Remapped(seen: seq<Sighting>, angle: int, w: int, h: int): (r: seq<Sighting>)
    ensures |r| == |seen|
  {
    if angle == 0 then seen
    else seq(|seen|, i requires 0 <= i < |seen| => Unrotated(seen[i], angle, w, h))
  }

  lemma RemappedIsReported(seen: seq<Sighting>, cfg: Config, w: int, h: int, angle: int, reg: Registry)
    requires AllGated(seen, cfg, w, h, angle, reg)
    ensures AllReported(Remapped(seen, angle, w, h), cfg, w, h, [angle], reg)
  {
    var r := Remapped(seen, angle, w, h);
    forall i | 0 <= i < |r|
      ensures Reported(r[i], cfg, w, h) && r[i].rotation in [angle]
      ensures r[i].id in reg.plates && reg.plates[r[i].id].clarity >= r[i].clarity
    {
      if angle != 0 {
        UnrotatedIsReported(seen[i], angle, cfg, w, h);
      }
    }
  }

  /** Spots of a rotated view with their boxes remapped onto the `w x h` frame. */
  function Moved(ps: seq<Spot>, angle: int, w: int, h: int): (r: seq<Spot>)
    ensures |r| == |ps|
  {
    if angle == 0 then ps
    else seq(|ps|, i requires 0 <= i < |ps| => ps[i].(coords := Remap(angle, ps[i].coords, w, h)))
  }

  lemma RemappedSpots(seen: seq<Sighting>, angle: int, w: int, h: int)
    ensures Spots(Remapped(seen, angle, w, h)) == Moved(Spots(seen), angle, w, h)
  {
  }

  lemma AppendReported(a: seq<Sighting>, b: seq<Sighting>, cfg: Config, w: int, h: int, angles: seq<int>,
                       reg: Registry, reg': Registry)
    requires |angles| > 0 && Progress(reg, reg')
    requires AllReported(a, cfg, w, h, [angles[0]], reg)
    requires AllReported(b, cfg, w, h, angles[1..], reg')
    ensures AllReported(a + b, cfg, w, h, angles, reg')
  {
    forall i | 0 <= i < |a + b|
      ensures Reported((a + b)[i], cfg, w, h) && (a + b)[i].rotation in angles
      ensures (a + b)[i].id in reg'.plates && reg'.plates[(a + b)[i].id].clarity >= (a + b)[i].clarity
    {
      if i < |a| {
        assert (a + b)[i] == a[i];
      } else {
        assert (a + b)[i] == b[i - |a|];
      }
    }
  }

  /** The reference for one view of a frame: its passing boxes, mapped back onto the frame. */
  function ViewReport(env: Env, cfg: Config, frame: Image, angle: int): (r: seq<Spot>)
    ensures forall i :: 0 <= i < |r| ==> r[i].rotation == angle
  {
    var view := ViewOf(env, frame, angle);
    Moved(Expected(env, cfg, frame, view, angle, env.detect(view)), angle, Width(frame), Height(frame))
  }

  /**
   One view of a frame: its boxes processed, then, for a rotated view,
   each box mapped back onto the frame's `w x h` canvas.
   */
  function ProcessView(l: Labelling, env: Env, cfg: Config, st: State, frame: Image, angle: int,
                       frameNum: int): (r: Batch)
    requires Ready(cfg, st)
    ensures Ready(cfg, r.st)
    ensures Progress(st.reg, r.st.reg)
    ensures Sound(st) ==> Sound(r.st)
    ensures TextsKept(l, env, st.reg, r.st.reg)
    ensures Spots(r.seen) == ViewReport(env, cfg, frame, angle)
    ensures AllReported(r.seen, cfg, Width(frame), Height(frame), [angle], r.st.reg)
  {
    var view := ViewOf(env, frame, angle);
    var b := ProcessBoxes(l, env, cfg, st, frame, view, angle, env.detect(view), frameNum);
    RemappedIsReported(b.seen, cfg, Width(frame), Height(frame), angle, b.st.reg);
    RemappedSpots(b.seen, angle, Width(frame), Height(frame));
    Batch(b.st, Remapped(b.seen, angle, Width(frame), Height(frame)))
  }

  /** The upright view, then the rotated views when rotation is enabled. */
  function Angles(cfg: Config): (r: seq<int>)
    ensures |r| == (if cfg.rotation then 4 else 1) && r[0] == 0
    ensures r[1..] == (if cfg.rotation then RotationAngles else [])
  {
    [0] + (if cfg.rotation then RotationAngles else [])
  }

  /** The reference for several views: each view's report, in the order of `angles`. */
  function FrameReport(env: Env, cfg: Config, frame: Image, angles: seq<int>): seq<Spot>
    decreases |angles|
  {
    if |angles| == 0 then []
    else ViewReport(env, cfg, frame, angles[0]) + FrameReport(env, cfg, frame, angles[1..])
  }

  /** The views of `angles`, in order, with the sightings of each appended. */
  function ProcessViews(l: Labelling, env: Env, cfg: Config, st: State, frame: Image, angles: seq<int>,
                        frameNum: int): (r: Batch)
    requires Ready(cfg, st)
    ensures Ready(cfg, r.st)
    ensures Progress(st.reg, r.st.reg)
    ensures Sound(st) ==> Sound(r.st)
    ensures TextsKept(l, env, st.reg, r.st.reg)
    ensures Spots(r.seen) == FrameReport(env, cfg, frame, angles)
    ensures AllReported(r.seen, cfg, Width(frame), Height(frame), angles, r.st.reg)
    decreases |angles|
  {
    if |angles| == 0 then Batch(st, [])
    else
      var first := ProcessView(l, env, cfg, st, frame, angles[0], frameNum);
      var rest := ProcessViews(l, env, cfg, first.st, frame, angles[1..], frameNum);
      ProgressTransitive(st.reg, first.st.reg, rest.st.reg);
      TextsKeptTransitive(l, env, st.reg, first.st.reg, rest.st.reg);
      AppendReported(first.seen, rest.seen, cfg, Width(frame), Height(frame), angles, first.st.reg, rest.st.reg);
      SpotsAppend(first.seen, rest.seen);
      Batch(rest.st, first.seen + rest.seen)
  }

  /**
   One frame of the loop: `frame_detections` and the state after it.
   What is reported is fixed by the frame and the environment; only the
   ids and the duplicate flags depend on the state.
   */
  function ProcessFrame(l: Labelling, env: Env, cfg: Config, st: State, frame: Image, frameNum: int): (r: Batch)
    requires Ready(cfg, st)
    ensures Ready(cfg, r.st)
    ensures Progress(st.reg, r.st.reg)
    ensures Sound(st) ==> Sound(r.st)
    ensures TextsKept(l, env, st.reg, r.st.reg)
    ensures Spots(r.seen) == FrameReport(env, cfg, frame, Angles(cfg))
    ensures AllReported(r.seen, cfg, Width(frame), Height(frame), Angles(cfg), r.st.reg)
  {
    ProcessViews(l, env, cfg, st, frame, Angles(cfg), frameNum)
  }

  /** The state before the first frame: no plates, no tracked frames, the table as found on disk. */
  function Start(fps: real, distance: real, table: Table): (st: State)
    ensures st.reg == EmptyRegistry && st.tracker == NewTracker(fps, distance) && st.table == table
  {
    State(EmptyRegistry, NewTracker(fps, distance), table)
  }

  /** The loop starts ready and sound when the table is and, for speed, the frame rate is positive. */
  lemma StartIsSound(cfg: Config, fps: real, distance: real, table: Table)
    requires Store.Wf(table) && (cfg.measureSpeed ==> fps > 0.0)
    ensures Ready(cfg, Start(fps, distance, table))
    ensures Sound(Start(fps, distance, table))
    ensures TextInvariant(Start(fps, distance, table).reg)
  {
    EmptyRegistryWf();
  }

  /** The key the loop reads after frame `frameNum`: only a displayed video reads keys. */
  function KeyAfter(env: Env, display: bool, frameNum: int): (r: Key)
    ensures display ==> r == env.key(frameNum)
    ensures !display ==> r == OtherKey
  {
    if display then env.key(frameNum) else OtherKey
  }

  /** `enable_rotation` after a key: 'r' flips it. */
  function Toggled(rotation: bool, k: Key): bool {
    if k == ToggleRotation then !rotation else rotation
  }

  /** The configuration for the frame after a key. */
  function NextConfig(cfg: Config, k: Key): (r: Config)
    ensures r.measureSpeed == cfg.measureSpeed && r.useOcr == cfg.useOcr && r.confThreshold == cfg.confThreshold
    ensures r.rotation == (if k == ToggleRotation then !cfg.rotation else cfg.rotation)
    ensures r == cfg.(rotation := r.rotation)
  {
    cfg.(rotation := Toggled(cfg.rotation, k))
  }

  /**
   The loop over a video, frames numbered from `frameNum` on, until the
   frames run out or 'q' is pressed; the state at the end.
   */
  function Run(l: Labelling, env: Env, cfg: Config, st: State, frames: seq<Image>, frameNum: int): (r: State)
    requires Ready(cfg, st)
    ensures Ready(cfg, r)
    ensures Progress(st.reg, r.reg)
    ensures Sound(st) ==> Sound(r)
    ensures TextsKept(l, env, st.reg, r.reg)
    ensures |frames| == 0 ==> r == st
    // 'q' after the first frame ends the run with that frame processed
    ensures |frames| > 0 && KeyAfter(env, cfg.display, frameNum) == Quit ==>
      r == ProcessFrame(l, env, cfg, st, frames[0], frameNum).st
    decreases |frames|
  {
    if |frames| == 0 then st
    else
      var next := ProcessFrame(l, env, cfg, st, frames[0], frameNum).st;
      var k := KeyAfter(env, cfg.display, frameNum);
      if k == Quit then next
      else
        var r := Run(l, env, NextConfig(cfg, k), next, frames[1..], frameNum + 1);
        ProgressTransitive(st.reg, next.reg, r.reg);
        TextsKeptTransitive(l, env, st.reg, next.reg, r.reg);
        r
  }

  /** The keys read after `n` frames numbered from `frameNum` on. */
  function Keys(env: Env, display: bool, frameNum: int, n: nat): (ks: seq<Key>)
    ensures |ks| == n && forall i :: 0 <= i < n ==> ks[i] == KeyAfter(env, display, frameNum + i)
  {
    seq(n, i requires 0 <= i < n => KeyAfter(env, display, frameNum + i))
  }

  /** Each flag but the last is followed by a key other than 'q', and the next flag is toggled by it. */
  predicate Toggles(r: seq<bool>, ks: seq<Key>)
    requires |ks| == |r|
  {
    forall i :: 0 <= i < |r| - 1 ==> ks[i] != Quit && r[i + 1] == Toggled(r[i], ks[i])
  }

  /**
   The rotation flag of each frame the loop processes, read off the keys
   alone: the first frame has `rotation`, 'r' flips it for the next frame,
   and the frames stop after a 'q' or when the `n` frames run out.
   */
  function Rotations(env: Env, display: bool, rotation: bool, n: nat, frameNum: int): (r: seq<bool>)
    ensures |r| <= n && (n > 0 ==> |r| >= 1 && r[0] == rotation)
    ensures Toggles(r, Keys(env, display, frameNum, |r|))
    // the run stops early only after 'q'
    ensures 0 < |r| < n ==> KeyAfter(env, display, frameNum + |r| - 1) == Quit
    decreases n
  {
    if n == 0 then []
    else
      var k := KeyAfter(env, display, frameNum);
      if k == Quit then [rotation]
      else
        var rest := Rotations(env, display, Toggled(rotation, k), n - 1, frameNum + 1);
        TogglesCons(env, display, rotation, rest, frameNum);
        [rotation] + rest
  }

  lemma TogglesCons(env: Env, display: bool, rotation: bool, rest: seq<bool>, frameNum: int)
    requires KeyAfter(env, display, frameNum) != Quit
    requires |rest| > 0 ==> rest[0] == Toggled(rotation, KeyAfter(env, display, frameNum))
    requires Toggles(rest, Keys(env, display, frameNum + 1, |rest|))
    ensures Toggles([rotation] + rest, Keys(env, display, frameNum, |rest| + 1))
  {
    var r := [rotation] + rest;
    var ks := Keys(env, display, frameNum, |rest| + 1);
    var ks' := Keys(env, display, frameNum + 1, |rest|);
    forall i | 0 <= i < |r| - 1
      ensures ks[i] != Quit && r[i + 1] == Toggled(r[i], ks[i])
    {
      if i > 0 {
        assert r[i] == rest[i - 1] && r[i + 1] == rest[i] && ks[i] == ks'[i - 1];
      }
    }
  }

  /** The frames processed in order, frame `i` with rotation `rots[i]`, no key read. */
  function Replay(l: Labelling, env: Env, cfg: Config, st: State, frames: seq<Image>, rots: seq<bool>,
                  frameNum: int): (r: State)
    requires Ready(cfg, st) && |rots| == |frames|
    ensures Ready(cfg, r)
    ensures Progress(st.reg, r.reg)
    decreases |frames|
  {
    if |frames| == 0 then st
    else
      var next := ProcessFrame(l, env, cfg.(rotation := rots[0]), st, frames[0], frameNum).st;
      var r := Replay(l, env, cfg, next, frames[1..], rots[1..], frameNum + 1);
      ProgressTransitive(st.reg, next.reg, r.reg);
      r
  }

  /**
   The loop is the replay of the frames it reaches with the rotation
   flags of `Rotations`: keys decide only which frames and which flags.
   */
  lemma RunIsReplay(l: Labelling, env: Env, cfg: Config, st: State, frames: seq<Image>, frameNum: int)
    requires Ready(cfg, st)
    ensures var rots := Rotations(env, cfg.display, cfg.rotation, |frames|, frameNum);
      Run(l, env, cfg, st, frames, frameNum) == Replay(l, env, cfg, st, frames[..|rots|], rots, frameNum)
  {
    RunIsReplayUnder(l, env, cfg, cfg, st, frames, frameNum);
  }

  /** `RunIsReplay` for a run whose rotation has been toggled away from `base`'s. */
  lemma {:induction false} RunIsReplayUnder(l: Labelling, env: Env, cfg: Config, base: Config, st: State,
                                       frames: seq<Image>, frameNum: int)
    requires Ready(cfg, st) && cfg == base.(rotation := cfg.rotation)
    ensures ReplaysRun(l, env, cfg, base, st, frames, frameNum)
    decreases |frames|
  {
    if |frames| > 0 {
      var k := KeyAfter(env, cfg.display, frameNum);
      if k == Quit {
        QuitIsReplay(l, env, cfg, base, st, frames, frameNum);
      } else {
        var next := ProcessFrame(l, env, cfg, st, frames[0], frameNum).st;
        RunIsReplayUnder(l, env, NextConfig(cfg, k), base, next, frames[1..], frameNum + 1);
        ContinueIsReplay(l, env, cfg, base, st, frames, frameNum);
      }
    } else {
      assert frames[..0] == [];
    }
  }

  /** The run from `cfg` is the replay, under `base`'s other switches, of the frames it reaches. */
  ghost predicate ReplaysRun(l: Labelling, env: Env, cfg: Config, base: Config, st: State, frames: seq<Image>,
                             frameNum: int)
    requires Ready(cfg, st) && cfg == base.(rotation := cfg.rotation)
  {
    var rots := Rotations(env, cfg.display, cfg.rotation, |frames|, frameNum);
    Run(l, env, cfg, st, frames, frameNum) == Replay(l, env, base, st, frames[..|rots|], rots, frameNum)
  }

  lemma QuitIsReplay(l: Labelling, env: Env, cfg: Config, base: Config, st: State, frames: seq<Image>,
                     frameNum: int)
    requires Ready(cfg, st) && cfg == base.(rotation := cfg.rotation)
    requires |frames| > 0 && KeyAfter(env, cfg.display, frameNum) == Quit
    ensures ReplaysRun(l, env, cfg, base, st, frames, frameNum)
  {
    var next := ProcessFrame(l, env, cfg, st, frames[0], frameNum).st;
    RotationsStep(env, cfg.display, cfg.rotation, |frames|, frameNum);
    RunStep(l, env, cfg, st, frames, frameNum);
    ReplayHead(l, env, cfg, base, st, frames, [cfg.rotation], frameNum);
    assert Replay(l, env, base, next, frames[1..][..0], [], frameNum + 1) == next;
  }

  lemma ContinueIsReplay(l: Labelling, env: Env, cfg: Config, base: Config, st: State, frames: seq<Image>,
                         frameNum: int)
    requires Ready(cfg, st) && cfg == base.(rotation := cfg.rotation)
    requires |frames| > 0 && KeyAfter(env, cfg.display, frameNum) != Quit
    requires ReplaysRun(l, env, NextConfig(cfg, KeyAfter(env, cfg.display, frameNum)), base,
                        ProcessFrame(l, env, cfg, st, frames[0], frameNum).st, frames[1..], frameNum + 1)
    ensures ReplaysRun(l, env, cfg, base, st, frames, frameNum)
  {
    ContinueRunSide(l, env, cfg, base, st, frames, frameNum);
    ContinueReplaySide(l, env, cfg, base, st, frames, frameNum);
  }

  lemma ContinueRunSide(l: Labelling, env: Env, cfg: Config, base: Config, st: State, frames: seq<Image>,
                        frameNum: int)
    requires Ready(cfg, st) && cfg == base.(rotation := cfg.rotation)
    requires |frames| > 0 && KeyAfter(env, cfg.display, frameNum) != Quit
    requires ReplaysRun(l, env, NextConfig(cfg, KeyAfter(env, cfg.display, frameNum)), base,
                        ProcessFrame(l, env, cfg, st, frames[0], frameNum).st, frames[1..], frameNum + 1)
    ensures var k := KeyAfter(env, cfg.display, frameNum);
      var rest := Rotations(env, cfg.display, Toggled(cfg.rotation, k), |frames| - 1, frameNum + 1);
      Run(l, env, cfg, st, frames, frameNum) ==
        Replay(l, env, base, ProcessFrame(l, env, cfg, st, frames[0], frameNum).st, frames[1..][..|rest|], rest,
               frameNum + 1)
  {
    var k := KeyAfter(env, cfg.display, frameNum);
    var cfg' := NextConfig(cfg, k);
    assert cfg'.display == cfg.display && cfg'.rotation == Toggled(cfg.rotation, k);
    assert |frames[1..]| == |frames| - 1;
    RunStep(l, env, cfg, st, frames, frameNum);
  }

  lemma ContinueReplaySide(l: Labelling, env: Env, cfg: Config, base: Config, st: State, frames: seq<Image>,
                           frameNum: int)
    requires Ready(cfg, st) && cfg == base.(rotation := cfg.rotation)
    requires |frames| > 0 && KeyAfter(env, cfg.display, frameNum) != Quit
    ensures var k := KeyAfter(env, cfg.display, frameNum);
      var rest := Rotations(env, cfg.display, Toggled(cfg.rotation, k), |frames| - 1, frameNum + 1);
      var rots := Rotations(env, cfg.display, cfg.rotation, |frames|, frameNum);
      Replay(l, env, base, st, frames[..|rots|], rots, frameNum) ==
        Replay(l, env, base, ProcessFrame(l, env, cfg, st, frames[0], frameNum).st, frames[1..][..|rest|], rest,
               frameNum + 1)
  {
    var k := KeyAfter(env, cfg.display, frameNum);
    var rest := Rotations(env, cfg.display, Toggled(cfg.rotation, k), |frames| - 1, frameNum + 1);
    var rots := Rotations(env, cfg.display, cfg.rotation, |frames|, frameNum);
    RotationsStep(env, cfg.display, cfg.rotation, |frames|, frameNum);
    assert rots[1..] == rest && frames[1..][..|rots| - 1] == frames[1..][..|rest|];
    ReplayHead(l, env, cfg, base, st, frames, rots, frameNum);
  }

  /** One frame of `Run`: the frame, then 'q' stops and any other key goes on with `NextConfig`. */
  lemma RunStep(l: Labelling, env: Env, cfg: Config, st: State, frames: seq<Image>, frameNum: int)
    requires Ready(cfg, st) && |frames| > 0
    ensures var k := KeyAfter(env, cfg.display, frameNum);
      var next := ProcessFrame(l, env, cfg, st, frames[0], frameNum).st;
      Run(l, env, cfg, st, frames, frameNum) ==
        if k == Quit then next else Run(l, env, NextConfig(cfg, k), next, frames[1..], frameNum + 1)
  {
  }

  /** The first frame of a replay is processed as the loop processes it. */
  lemma ReplayHead(l: Labelling, env: Env, cfg: Config, base: Config, st: State, frames: seq<Image>,
                   rots: seq<bool>, frameNum: int)
    requires Ready(cfg, st) && cfg == base.(rotation := cfg.rotation)
    requires 0 < |rots| <= |frames| && rots[0] == cfg.rotation
    ensures Replay(l, env, base, st, frames[..|rots|], rots, frameNum) ==
      Replay(l, env, base, ProcessFrame(l, env, cfg, st, frames[0], frameNum).st, frames[1..][..|rots| - 1],
             rots[1..], frameNum + 1)
  {
    var fs := frames[..|rots|];
    assert fs[0] == frames[0] && fs[1..] == frames[1..][..|rots| - 1];
    assert base.(rotation := rots[0]) == cfg;
    ReplayCons(l, env, base, st, fs, rots, frameNum);
  }

  /** One frame of `Rotations`. */
  lemma RotationsStep(env: Env, display: bool, rotation: bool, n: nat, frameNum: int)
    requires n > 0
    ensures var k := KeyAfter(env, display, frameNum);
      Rotations(env, display, rotation, n, frameNum) ==
        [rotation] + (if k == Quit then [] else Rotations(env, display, Toggled(rotation, k), n - 1, frameNum + 1))
  {
  }

  /** One frame of a replay. */
  lemma ReplayCons(l: Labelling, env: Env, cfg: Config, st: State, frames: seq<Image>, rots: seq<bool>,
                   frameNum: int)
    requires Ready(cfg, st) && |rots| == |frames| > 0
    ensures Replay(l, env, cfg, st, frames, rots, frameNum) ==
      Replay(l, env, cfg, ProcessFrame(l, env, cfg.(rotation := rots[0]), st, frames[0], frameNum).st,
             frames[1..], rots[1..], frameNum + 1)
  {
  }

  /**
   `run_video_detection` from the start: frames are numbered from 1. The
   end state is sound and read texts stay distinct; with `ByIdentity`
   and a whitelisted reader every stored text is distinct.
   */
  function RunVideo(l: Labelling, env: Env, cfg: Config, fps: real, distance: real, table: Table,
                    frames: seq<Image>): (r: State)
    requires Store.Wf(table) && (cfg.measureSpeed ==> fps > 0.0)
    ensures Sound(r) && ReadingsDistinct(r.reg)
    ensures l == ByIdentity && OcrClean(env) ==> TextInvariant(r.reg)
  {
    StartIsSound(cfg, fps, distance, table);
    TextInvariantHasReadingsDistinct(EmptyRegistry);
    Run(l, env, cfg, Start(fps, distance, table), frames, 1)
  }
}
