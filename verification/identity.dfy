/**
 The identity registry of `run_video_detection` (`unique_plates` and
 `plate_id_counter`): `get_unique_plate_id` and the registry side of
 `save_plate_image`. Python's dict keeps insertion order, so the registry
 is the sequence of ids in creation order plus a map from id to record.
 */
module Identity {
  import opened Wrappers
  import opened Geometry
  import opened PlateText
  import opened Speed

  /** One registry entry: the clearest view seen so far and what came with it. */
  datatype Plate = Plate(
    image: Image,
    clarity: real,
    conf: real,
    rotation: int,
    text: Option<string>,
    speed: Option<real>)

  datatype Registry = Registry(order: seq<PlateId>, plates: map<PlateId, Plate>, counter: nat)

  /** The registry before the first frame: the counter starts at 1. */
  const EmptyRegistry: Registry := Registry([], map[], 1)

  /** Every id in the creation order has a record. */
  ghost predicate Indexed(reg: Registry) {
    forall i :: 0 <= i < |reg.order| ==> reg.order[i] in reg.plates
  }

  /**
   The order lists each record once, and every id is below the counter,
   so the counter is never an id in use.
   */
  ghost predicate Wf(reg: Registry) {
    && Indexed(reg)
    && reg.counter >= 1
    && (forall i :: 0 <= i < |reg.order| ==> 1 <= reg.order[i] < reg.counter)
    && (forall i, j :: 0 <= i < j < |reg.order| ==> reg.order[i] != reg.order[j])
    && (forall id :: id in reg.plates ==> id in reg.order)
  }

  lemma EmptyRegistryWf()
    ensures Wf(EmptyRegistry)
  {
  }

  /** Position of the first id in `ids` that satisfies `p`. */
  function FirstMatch(ids: seq<PlateId>, p: PlateId -> bool): (r: Option<nat>)
    ensures r.Some? ==> r.value < |ids| && p(ids[r.value])
    ensures r.Some? ==> forall j :: 0 <= j < r.value ==> !p(ids[j])
    ensures r.None? ==> forall j :: 0 <= j < |ids| ==> !p(ids[j])
    decreases |ids|
  {
    if |ids| == 0 then None
    else if p(ids[0]) then Some(0)
    else
      match FirstMatch(ids[1..], p)
      case None => None
      case Some(k) => Some(k + 1)
  }

  /** `calculate_image_similarity(img, stored image)` for the record of `id`. */
  function SimilarTo(reg: Registry, img: Image, similar: (Image, Image) -> bool): PlateId -> bool {
    id => id in reg.plates && similar(img, reg.plates[id].image)
  }

  /** The record of `id` stores exactly this text. */
  function HoldsText(reg: Registry, t: string): PlateId -> bool {
    id => id in reg.plates && reg.plates[id].text == Some(t)
  }

  /** What `get_unique_plate_id` returns: matched id, whether it matched, and the text. */
  datatype Resolution = Resolution(id: Option<PlateId>, duplicate: bool, text: Option<string>)

  /** `id` is the first id in creation order satisfying `p`. */
  ghost predicate FirstInOrder(reg: Registry, id: PlateId, p: PlateId -> bool) {
    exists k :: 0 <= k < |reg.order| && reg.order[k] == id && p(id)
      && forall j :: 0 <= j < k ==> !p(reg.order[j])
  }

  /**
   `get_unique_plate_id`, with `text` the (already filtered) OCR result.
   With a text only an exact stored-text match is looked for; without one
   the first plate in creation order whose image is similar wins.
   */
  function Resolve(reg: Registry, img: Image, text: Option<string>, similar: (Image, Image) -> bool): (r: Resolution)
    requires Indexed(reg)
    ensures r.text == text
    ensures r.duplicate <==> r.id.Some?
    ensures r.id.Some? ==> r.id.value in reg.plates
    ensures r.id.Some? ==> FirstInOrder(reg, r.id.value, Matcher(reg, img, text, similar))
    ensures r.id.None? ==> forall i :: 0 <= i < |reg.order| ==> !Matcher(reg, img, text, similar)(reg.order[i])
    ensures text.Some? && r.id.Some? ==> FirstInOrder(reg, r.id.value, HoldsText(reg, text.value))
    ensures text.Some? && r.id.None? ==>
      forall i :: 0 <= i < |reg.order| ==> reg.plates[reg.order[i]].text != text
    ensures text.None? && r.id.Some? ==> FirstInOrder(reg, r.id.value, SimilarTo(reg, img, similar))
    ensures text.None? && r.id.None? ==>
      forall i :: 0 <= i < |reg.order| ==> !similar(img, reg.plates[reg.order[i]].image)
  {
    var p := Matcher(reg, img, text, similar);
    match FirstMatch(reg.order, p)
    case None =>
      assert forall i :: 0 <= i < |reg.order| ==> !p(reg.order[i]);
      Resolution(None, false, text)
    case Some(k) =>
      assert FirstInOrder(reg, reg.order[k], p);
      Resolution(Some(reg.order[k]), true, text)
  }

  /** The test `get_unique_plate_id` applies to each stored plate. */
  function Matcher(reg: Registry, img: Image, text: Option<string>, similar: (Image, Image) -> bool): PlateId -> bool {
    if text.None? then SimilarTo(reg, img, similar) else HoldsText(reg, text.value)
  }

  /** The first position whose plate passes the test is what `FirstMatch` finds. */
  lemma {:induction false} FirstMatchAt(ids: seq<PlateId>, p: PlateId -> bool, k: nat)
    requires k < |ids| && p(ids[k])
    requires forall j :: 0 <= j < k ==> !p(ids[j])
    ensures FirstMatch(ids, p) == Some(k)
    decreases k
  {
    if k > 0 {
      assert !p(ids[0]);
      assert forall j :: 0 <= j < k - 1 ==> ids[1..][j] == ids[j + 1];
      FirstMatchAt(ids[1..], p, k - 1);
    }
  }

  /** The plate at position `k` is found when it is the first one that passes. */
  lemma ResolveFindsFirst(reg: Registry, img: Image, text: Option<string>, similar: (Image, Image) -> bool, k: nat)
    requires Indexed(reg) && k < |reg.order|
    requires Matcher(reg, img, text, similar)(reg.order[k])
    requires forall j :: 0 <= j < k ==> !Matcher(reg, img, text, similar)(reg.order[j])
    ensures Resolve(reg, img, text, similar).id == Some(reg.order[k])
  {
    FirstMatchAt(reg.order, Matcher(reg, img, text, similar), k);
  }

  /** A text reading decides alone: neither the image nor the similarity test matters. */
  lemma TextResolutionIgnoresImages(reg: Registry, a: Image, b: Image, t: string,
                                    s1: (Image, Image) -> bool, s2: (Image, Image) -> bool)
    requires Indexed(reg)
    ensures Resolve(reg, a, Some(t), s1) == Resolve(reg, b, Some(t), s2)
  {
  }

  /** An empty registry matches nothing. */
  lemma EmptyRegistryResolvesNew(img: Image, text: Option<string>, similar: (Image, Image) -> bool)
    ensures Resolve(EmptyRegistry, img, text, similar) == Resolution(None, false, text)
  {
  }

  /** The detection handed to `save_plate_image`. */
  datatype Candidate = Candidate(image: Image, clarity: real, conf: real, rotation: int)

  /** The `use_ocr` and `measure_speed` switches. */
  datatype Options = Options(useOcr: bool, measureSpeed: bool)

  /**
   Which number the `UNKNOWN_` placeholder carries. `ByCounter` is the
   source: `plate_id_counter`, also when an existing plate is updated.
   `ByIdentity` numbers it with the plate it labels.
   */
  datatype Labelling = ByCounter | ByIdentity

  function PlaceholderNumber(l: Labelling, reg: Registry, matched: Option<PlateId>): (r: nat)
    ensures l == ByCounter || matched.None? ==> r == reg.counter
    ensures l == ByIdentity && matched.Some? ==> r == matched.value
  {
    if l == ByIdentity && matched.Some? then matched.value else reg.counter
  }

  /** The arguments of the `db.save_cv2_image` call a save makes. */
  datatype Write = Write(
    plateId: PlateId,
    image: Image,
    clarity: real,
    conf: real,
    rotation: int,
    text: Option<string>,
    speed: Option<real>)

  datatype Saved = Saved(reg: Registry, tracker: Tracker, id: PlateId, duplicate: bool, write: Option<Write>)

  /** The record stored for a candidate. */
  function PlateOf(d: Candidate, text: Option<string>, speed: Option<real>): Plate {
    Plate(d.image, d.clarity, d.conf, d.rotation, text, speed)
  }

  /** The identity the source files the detection under, before saving. */
  function SpeedKey(reg: Registry, res: Resolution): (r: PlateId)
    ensures res.id.Some? ==> r == res.id.value
    ensures res.id.None? ==> r == reg.counter
  {
    if res.id.Some? then res.id.value else reg.counter
  }

  /** The text stored with the detection: the reading, or with `use_ocr` a placeholder. */
  function Label(l: Labelling, reg: Registry, opts: Options, res: Resolution): (r: Option<string>)
    ensures opts.useOcr && res.text.None? ==> r == Some(Placeholder(PlaceholderNumber(l, reg, res.id)))
    ensures !(opts.useOcr && res.text.None?) ==> r == res.text
    // with `use_ocr` every plate carries a text; a placeholder only when nothing was read
    ensures opts.useOcr ==> r.Some?
    ensures r.Some? && res.text.None? ==> IsPlaceholder(r.value)
  {
    if opts.useOcr && res.text.None? then Some(Placeholder(PlaceholderNumber(l, reg, res.id)))
    else res.text
  }

  /**
   The registry logic of `save_plate_image`: resolve the identity, label
   it, feed the speed tracker under the identity's id, then either create
   a new plate `counter` and advance the counter, or, for a match, replace
   all fields when the new view is strictly clearer and otherwise update
   only a changed speed. File and database side effects are the `write`.
   */
  function Save(l: Labelling, reg: Registry, tracker: Tracker, opts: Options, d: Candidate,
                frame: int, text: Option<string>, similar: (Image, Image) -> bool): (o: Saved)
    requires Wf(reg)
    requires opts.measureSpeed ==> tracker.fps > 0.0
    ensures o.duplicate <==> Resolve(reg, d.image, text, similar).id.Some?
    ensures o.id == SpeedKey(reg, Resolve(reg, d.image, text, similar))
    ensures Wf(o.reg) && o.id in o.reg.plates
    // only the returned plate changes; a new one is appended under the counter
    ensures o.reg.plates == reg.plates[o.id := o.reg.plates[o.id]]
    ensures o.reg.order == (if o.duplicate then reg.order else reg.order + [o.id])
    ensures o.reg.counter == (if o.duplicate then reg.counter else reg.counter + 1)
  {
    var res := Resolve(reg, d.image, text, similar);
    var tag := Label(l, reg, opts, res);
    var key := SpeedKey(reg, res);
    var tracker' := if opts.measureSpeed then AddDetection(tracker, key, frame) else tracker;
    var speed := if opts.measureSpeed then GetSpeed(tracker', key) else None;
    match res.id
    case Some(id) => Merge(reg, tracker', id, d, tag, speed)
    case None =>
      var p := PlateOf(d, tag, speed);
      Saved(Create(reg, p), tracker', reg.counter, false, Some(WriteOf(reg.counter, p)))
  }

  /** No stored clarity drops: a matched plate is only replaced by a clearer view. */
  lemma SaveKeepsClarity(l: Labelling, reg: Registry, tracker: Tracker, opts: Options, d: Candidate,
                         frame: int, text: Option<string>, similar: (Image, Image) -> bool)
    requires Wf(reg)
    requires opts.measureSpeed ==> tracker.fps > 0.0
    ensures var o := Save(l, reg, tracker, opts, d, frame, text, similar);
      forall id :: id in reg.plates ==> o.reg.plates[id].clarity >= reg.plates[id].clarity
  {
    var o := Save(l, reg, tracker, opts, d, frame, text, similar);
    if o.duplicate {
      assert o.reg.plates[o.id].clarity >= reg.plates[o.id].clarity;
    }
  }

  /**
   A matched plate is either replaced as a whole, by a strictly clearer
   view, or keeps every field but its speed, which only changes to a
   speed that is present.
   */
  lemma SaveReplacesWhole(l: Labelling, reg: Registry, tracker: Tracker, opts: Options, d: Candidate,
                      frame: int, text: Option<string>, similar: (Image, Image) -> bool)
    requires Wf(reg)
    requires opts.measureSpeed ==> tracker.fps > 0.0
    ensures var o := Save(l, reg, tracker, opts, d, frame, text, similar);
      var tag := Label(l, reg, opts, Resolve(reg, d.image, text, similar));
      && (o.duplicate && d.clarity > reg.plates[o.id].clarity ==>
            o.reg.plates[o.id] == PlateOf(d, tag, o.reg.plates[o.id].speed))
      && (o.duplicate && d.clarity <= reg.plates[o.id].clarity ==>
            && o.reg.plates[o.id] == reg.plates[o.id].(speed := o.reg.plates[o.id].speed)
            && (o.reg.plates[o.id].speed != reg.plates[o.id].speed ==> o.reg.plates[o.id].speed.Some?))
      && (!o.duplicate ==> o.reg.plates[o.id] == PlateOf(d, tag, o.reg.plates[o.id].speed))
  {
  }

  /**
   The speed tracker is fed under the id the save returns, and a plate
   written as a whole carries the tracker's speed for that id.
   */
  lemma SaveFeedsTrackerUnderId(l: Labelling, reg: Registry, tracker: Tracker, opts: Options, d: Candidate,
                      frame: int, text: Option<string>, similar: (Image, Image) -> bool)
    requires Wf(reg)
    requires opts.measureSpeed ==> tracker.fps > 0.0
    ensures var o := Save(l, reg, tracker, opts, d, frame, text, similar);
      && (opts.measureSpeed ==> o.tracker == AddDetection(tracker, o.id, frame))
      && (!opts.measureSpeed ==> o.tracker == tracker)
      && (!o.duplicate || d.clarity > reg.plates[o.id].clarity ==>
            o.reg.plates[o.id].speed == (if opts.measureSpeed then GetSpeed(o.tracker, o.id) else None))
  {
  }

  /** The database is written for a new plate and for a clearer view, with the stored record. */
  lemma SaveWritesWhenStored(l: Labelling, reg: Registry, tracker: Tracker, opts: Options, d: Candidate,
                      frame: int, text: Option<string>, similar: (Image, Image) -> bool)
    requires Wf(reg)
    requires opts.measureSpeed ==> tracker.fps > 0.0
    ensures var o := Save(l, reg, tracker, opts, d, frame, text, similar);
      && (o.write.Some? <==> !o.duplicate || d.clarity > reg.plates[o.id].clarity)
      && (o.write.Some? ==> o.write.value == WriteOf(o.id, o.reg.plates[o.id]))
  {
  }

  /** A new plate under the counter; the counter moves on. */
  function Create(reg: Registry, p: Plate): (r: Registry)
    requires Wf(reg)
    ensures Wf(r)
    ensures reg.counter !in reg.plates
    ensures r == Registry(reg.order + [reg.counter], reg.plates[reg.counter := p], reg.counter + 1)
  {
    Registry(reg.order + [reg.counter], reg.plates[reg.counter := p], reg.counter + 1)
  }

  /** The matched branch of `save_plate_image`. */
  function Merge(reg: Registry, tracker: Tracker, id: PlateId, d: Candidate, tag: Option<string>,
                 speed: Option<real>): (o: Saved)
    requires Wf(reg) && id in reg.plates
    ensures Wf(o.reg) && o.id == id && o.duplicate && o.tracker == tracker
    ensures id in o.reg.plates && o.reg.plates == reg.plates[id := o.reg.plates[id]]
    ensures o.reg.plates[id].clarity >= reg.plates[id].clarity
    ensures o.reg.order == reg.order && o.reg.counter == reg.counter
    ensures d.clarity > reg.plates[id].clarity ==>
      o.reg.plates == reg.plates[id := PlateOf(d, tag, speed)] && o.write == Some(WriteOf(id, PlateOf(d, tag, speed)))
    ensures d.clarity <= reg.plates[id].clarity ==> o.write.None?
    ensures d.clarity <= reg.plates[id].clarity && speed.Some? && speed != reg.plates[id].speed ==>
      o.reg.plates == reg.plates[id := reg.plates[id].(speed := speed)]
    ensures d.clarity <= reg.plates[id].clarity && !(speed.Some? && speed != reg.plates[id].speed) ==>
      o.reg.plates == reg.plates
  {
    var prior := reg.plates[id];
    if d.clarity > prior.clarity then
      var p := PlateOf(d, tag, speed);
      Saved(reg.(plates := reg.plates[id := p]), tracker, id, true, Some(WriteOf(id, p)))
    else if speed.Some? && speed != prior.speed then
      Saved(reg.(plates := reg.plates[id := prior.(speed := speed)]), tracker, id, true, None)
    else
      Saved(reg, tracker, id, true, None)
  }

  function WriteOf(id: PlateId, p: Plate): Write {
    Write(id, p.image, p.clarity, p.conf, p.rotation, p.text, p.speed)
  }

  /** Distinct plates never store the same text. */
  ghost predicate TextsDistinct(reg: Registry) {
    forall a, b :: a in reg.plates && b in reg.plates && a != b && reg.plates[a].text.Some? ==>
      reg.plates[a].text != reg.plates[b].text
  }

  /** A placeholder text is only ever stored on the plate whose number it carries. */
  ghost predicate PlaceholdersOwned(reg: Registry) {
    forall id :: id in reg.plates && reg.plates[id].text.Some? && IsPlaceholder(reg.plates[id].text.value) ==>
      reg.plates[id].text.value == Placeholder(id)
  }

  ghost predicate TextInvariant(reg: Registry) {
    TextsDistinct(reg) && PlaceholdersOwned(reg)
  }

  /**
   A plate whose text becomes `tag` keeps the text invariant when no other
   plate holds `tag` and a placeholder `tag` carries this plate's number.
   */
  lemma RelabelKeepsTextInvariant(reg: Registry, r: Registry, id: PlateId, tag: Option<string>)
    requires TextInvariant(reg)
    requires id in r.plates && r.plates == reg.plates[id := r.plates[id]]
    requires r.plates[id].text == tag
    requires tag.Some? ==> forall b :: b in reg.plates && b != id ==> reg.plates[b].text != tag
    requires tag.Some? && IsPlaceholder(tag.value) ==> tag.value == Placeholder(id)
    ensures TextInvariant(r)
  {
  }

  /** A plate whose text stays as it was keeps the text invariant. */
  lemma SameTextKeepsTextInvariant(reg: Registry, r: Registry, id: PlateId)
    requires TextInvariant(reg)
    requires id in reg.plates && id in r.plates && r.plates == reg.plates[id := r.plates[id]]
    requires r.plates[id].text == reg.plates[id].text
    ensures TextInvariant(r)
  {
    RelabelKeepsTextInvariant(reg, r, id, reg.plates[id].text);
  }

  /**
   Under `ByIdentity` the text a save stores is held by no other plate,
   and a placeholder carries the number of the plate it is filed under.
   */
  lemma {:induction false} LabelIsFresh(reg: Registry, opts: Options, img: Image, text: Option<string>,
                                        similar: (Image, Image) -> bool)
    requires Wf(reg) && TextInvariant(reg)
    requires text.Some? ==> !IsPlaceholder(text.value)
    ensures var res := Resolve(reg, img, text, similar);
      var tag := Label(ByIdentity, reg, opts, res);
      && (tag.Some? ==> forall b :: b in reg.plates && b != SpeedKey(reg, res) ==> reg.plates[b].text != tag)
      && (tag.Some? && IsPlaceholder(tag.value) ==> tag.value == Placeholder(SpeedKey(reg, res)))
  {
    var res := Resolve(reg, img, text, similar);
    var tag := Label(ByIdentity, reg, opts, res);
    var key := SpeedKey(reg, res);
    var m := Matcher(reg, img, text, similar);
    if tag.Some? {
      forall b | b in reg.plates && b != key
        ensures reg.plates[b].text != tag
      {
        if text.Some? {
          assert tag == text;
          if res.id.None? {
            var i :| 0 <= i < |reg.order| && reg.order[i] == b;
            assert !m(reg.order[i]);
          } else {
            assert m(key);
            assert reg.plates[key].text == text;
          }
        } else {
          assert tag == Some(Placeholder(key));
          if reg.plates[b].text == tag {
            assert reg.plates[b].text.value == Placeholder(b);
            PlaceholderInjective(b, key);
          }
        }
      }
      if IsPlaceholder(tag.value) {
        assert text.None?;
      }
    }
  }

  /**
   With placeholders numbered by the plate they label, a save keeps stored
   texts distinct, given that an OCR reading is never itself a placeholder
   (tesseract's character whitelist has no underscore).
   */
  lemma SaveKeepsTextsDistinct(reg: Registry, tracker: Tracker, opts: Options, d: Candidate,
                               frame: int, text: Option<string>, similar: (Image, Image) -> bool)
    requires Wf(reg) && TextInvariant(reg)
    requires opts.measureSpeed ==> tracker.fps > 0.0
    requires text.Some? ==> !IsPlaceholder(text.value)
    ensures TextInvariant(Save(ByIdentity, reg, tracker, opts, d, frame, text, similar).reg)
  {
    var o := Save(ByIdentity, reg, tracker, opts, d, frame, text, similar);
    var tag := Label(ByIdentity, reg, opts, Resolve(reg, d.image, text, similar));
    SaveReplacesWhole(ByIdentity, reg, tracker, opts, d, frame, text, similar);
    LabelIsFresh(reg, opts, d.image, text, similar);
    if o.duplicate && d.clarity <= reg.plates[o.id].clarity {
      SameTextKeepsTextInvariant(reg, o.reg, o.id);
    } else {
      RelabelKeepsTextInvariant(reg, o.reg, o.id, tag);
    }
  }

  /** Distinct plates never store the same read text; placeholders are not counted. */
  ghost predicate ReadingsDistinct(reg: Registry) {
    forall a, b ::
      (a in reg.plates && b in reg.plates && a != b
       && reg.plates[a].text.Some? && !IsPlaceholder(reg.plates[a].text.value)) ==>
      reg.plates[a].text != reg.plates[b].text
  }

  /** A plate whose text becomes `tag` keeps read texts distinct when no other plate holds a read `tag`. */
  lemma RelabelKeepsReadingsDistinct(reg: Registry, r: Registry, id: PlateId, tag: Option<string>)
    requires ReadingsDistinct(reg)
    requires id in r.plates && r.plates == reg.plates[id := r.plates[id]]
    requires r.plates[id].text == tag
    requires tag.Some? && !IsPlaceholder(tag.value) ==>
      forall b :: b in reg.plates && b != id ==> reg.plates[b].text != tag
    ensures ReadingsDistinct(r)
  {
  }

  /**
   Under either numbering, a read text a save stores is held by no other
   plate: it is looked up by exact match, and a match is the plate saved.
   */
  lemma {:induction false} ReadingIsFresh(l: Labelling, reg: Registry, opts: Options, img: Image,
                                          text: Option<string>, similar: (Image, Image) -> bool)
    requires Wf(reg) && ReadingsDistinct(reg)
    ensures var res := Resolve(reg, img, text, similar);
      var tag := Label(l, reg, opts, res);
      tag.Some? && !IsPlaceholder(tag.value) ==>
        forall b :: b in reg.plates && b != SpeedKey(reg, res) ==> reg.plates[b].text != tag
  {
    var res := Resolve(reg, img, text, similar);
    var tag := Label(l, reg, opts, res);
    var key := SpeedKey(reg, res);
    var m := Matcher(reg, img, text, similar);
    if tag.Some? && !IsPlaceholder(tag.value) {
      assert tag == text;
      forall b | b in reg.plates && b != key
        ensures reg.plates[b].text != tag
      {
        if res.id.None? {
          var i :| 0 <= i < |reg.order| && reg.order[i] == b;
          assert !m(reg.order[i]);
        } else {
          assert m(key);
          assert reg.plates[key].text == text;
        }
      }
    }
  }

  /**
   The numbering the source uses still keeps read texts distinct: only
   placeholders can collide.
   */
  lemma SaveKeepsReadingsDistinct(l: Labelling, reg: Registry, tracker: Tracker, opts: Options, d: Candidate,
                                  frame: int, text: Option<string>, similar: (Image, Image) -> bool)
    requires Wf(reg) && ReadingsDistinct(reg)
    requires opts.measureSpeed ==> tracker.fps > 0.0
    ensures ReadingsDistinct(Save(l, reg, tracker, opts, d, frame, text, similar).reg)
  {
    var o := Save(l, reg, tracker, opts, d, frame, text, similar);
    var tag := Label(l, reg, opts, Resolve(reg, d.image, text, similar));
    SaveReplacesWhole(l, reg, tracker, opts, d, frame, text, similar);
    ReadingIsFresh(l, reg, opts, d.image, text, similar);
    if o.duplicate && d.clarity <= reg.plates[o.id].clarity {
      RelabelKeepsReadingsDistinct(reg, o.reg, o.id, reg.plates[o.id].text);
    } else {
      RelabelKeepsReadingsDistinct(reg, o.reg, o.id, tag);
    }
  }

  /** The text invariant of the corrected numbering implies this one. */
  lemma TextInvariantHasReadingsDistinct(reg: Registry)
    requires TextInvariant(reg)
    ensures ReadingsDistinct(reg)
  {
  }

  /** The similarity test of the collision trace: only the second view resembles the first. */
  const Resembles: (Image, Image) -> bool := (a: Image, b: Image) => a == [[2]] && b == [[1]]

  const TraceOptions := Options(true, false)

  const TraceTracker := NewTracker(30.0, 15.0)

  function TracePlate(pixel: int, clarity: real, n: nat): Plate {
    Plate([[pixel]], clarity, 0.9, 0, Some(Placeholder(n)), None)
  }

  function TraceSave(reg: Registry, pixel: int, clarity: real, frame: int): Registry
    requires Wf(reg)
  {
    Save(ByCounter, reg, TraceTracker, TraceOptions, Candidate([[pixel]], clarity, 0.9, 0), frame, None, Resembles).reg
  }

  /** First sighting: plate 1 is created as `UNKNOWN_1`. */
  lemma TraceStep1()
    ensures Wf(EmptyRegistry)
    ensures TraceSave(EmptyRegistry, 1, 150.0, 1) == Registry([1], map[1 := TracePlate(1, 150.0, 1)], 2)
  {
    EmptyRegistryWf();
    EmptyRegistryResolvesNew([[1]], None, Resembles);
  }

  /** Second sighting, similar and clearer: plate 1 is relabelled with the counter, `UNKNOWN_2`. */
  lemma TraceStep2()
    ensures var r := Registry([1], map[1 := TracePlate(1, 150.0, 1)], 2);
      Wf(r) && TraceSave(r, 2, 300.0, 2) == Registry([1], map[1 := TracePlate(2, 300.0, 2)], 2)
  {
    var r := Registry([1], map[1 := TracePlate(1, 150.0, 1)], 2);
    ResolveFindsFirst(r, [[2]], None, Resembles, 0);
  }

  /** Third sighting, not similar: plate 2 is created, also as `UNKNOWN_2`. */
  lemma TraceStep3()
    ensures var r := Registry([1], map[1 := TracePlate(2, 300.0, 2)], 2);
      && Wf(r)
      && TraceSave(r, 3, 150.0, 3) == Registry([1, 2], map[1 := TracePlate(2, 300.0, 2), 2 := TracePlate(3, 150.0, 2)], 3)
  {
    var r := Registry([1], map[1 := TracePlate(2, 300.0, 2)], 2);
    assert !Matcher(r, [[3]], None, Resembles)(r.order[0]);
  }

  /**
   The source as written: three text-less sightings with `use_ocr` on
   leave two plates holding the same text `UNKNOWN_2`.
   */
  lemma CounterPlaceholderCollides()
    ensures
      var r1 := TraceSave(EmptyRegistry, 1, 150.0, 1);
      var r2 := TraceSave(r1, 2, 300.0, 2);
      var r3 := TraceSave(r2, 3, 150.0, 3);
      && r3.order == [1, 2]
      && r3.plates[1].text == r3.plates[2].text == Some(Placeholder(2))
      && !TextsDistinct(r3)
  {
    TraceStep1();
    TraceStep2();
    TraceStep3();
  }

  /**
   A plate that passes the test is found first after an update of that
   plate alone, when no plate listed before it passed before.
   */
  lemma StillFoundFirst(reg: Registry, r: Registry, id: PlateId, img: Image, text: Option<string>,
                        similar: (Image, Image) -> bool, k: nat)
    requires Wf(reg) && Wf(r)
    requires id in r.plates && r.plates == reg.plates[id := r.plates[id]]
    requires || (k < |reg.order| && r.order == reg.order && reg.order[k] == id)
             || (k == |reg.order| && r.order == reg.order + [id])
    requires forall j :: 0 <= j < k ==> !Matcher(reg, img, text, similar)(reg.order[j])
    requires Matcher(r, img, text, similar)(id)
    ensures Resolve(r, img, text, similar).id == Some(id)
  {
    forall j | 0 <= j < k
      ensures !Matcher(r, img, text, similar)(r.order[j])
    {
      assert r.order[j] == reg.order[j] && r.order[k] == id;
      assert r.plates[r.order[j]] == reg.plates[reg.order[j]];
    }
    ResolveFindsFirst(r, img, text, similar, k);
  }

  /**
   After a save, the same detection resolves to the plate just saved, and
   that plate is at least as clear as the detection.
   */
  lemma SaveIsFoundAgain(l: Labelling, reg: Registry, tracker: Tracker, opts: Options, d: Candidate,
                         frame: int, text: Option<string>, similar: (Image, Image) -> bool)
    requires Wf(reg)
    requires opts.measureSpeed ==> tracker.fps > 0.0
    requires similar(d.image, d.image)
    ensures var o := Save(l, reg, tracker, opts, d, frame, text, similar);
      && Resolve(o.reg, d.image, text, similar).id == Some(o.id)
      && d.clarity <= o.reg.plates[o.id].clarity
  {
    var o := Save(l, reg, tracker, opts, d, frame, text, similar);
    if o.duplicate {
      MatchIsFoundAgain(l, reg, tracker, opts, d, frame, text, similar);
    } else {
      NewIsFoundAgain(l, reg, tracker, opts, d, frame, text, similar);
    }
  }

  lemma MatchIsFoundAgain(l: Labelling, reg: Registry, tracker: Tracker, opts: Options, d: Candidate,
                          frame: int, text: Option<string>, similar: (Image, Image) -> bool)
    requires Wf(reg)
    requires opts.measureSpeed ==> tracker.fps > 0.0
    requires similar(d.image, d.image)
    requires Save(l, reg, tracker, opts, d, frame, text, similar).duplicate
    ensures var o := Save(l, reg, tracker, opts, d, frame, text, similar);
      && Resolve(o.reg, d.image, text, similar).id == Some(o.id)
      && d.clarity <= o.reg.plates[o.id].clarity
  {
    var o := Save(l, reg, tracker, opts, d, frame, text, similar);
    var p := Matcher(reg, d.image, text, similar);
    SaveReplacesWhole(l, reg, tracker, opts, d, frame, text, similar);
    assert FirstInOrder(reg, o.id, p);
    var k :| 0 <= k < |reg.order| && reg.order[k] == o.id && p(o.id) && forall j :: 0 <= j < k ==> !p(reg.order[j]);
    StillFoundFirst(reg, o.reg, o.id, d.image, text, similar, k);
  }

  lemma NewIsFoundAgain(l: Labelling, reg: Registry, tracker: Tracker, opts: Options, d: Candidate,
                        frame: int, text: Option<string>, similar: (Image, Image) -> bool)
    requires Wf(reg)
    requires opts.measureSpeed ==> tracker.fps > 0.0
    requires similar(d.image, d.image)
    requires !Save(l, reg, tracker, opts, d, frame, text, similar).duplicate
    ensures var o := Save(l, reg, tracker, opts, d, frame, text, similar);
      && Resolve(o.reg, d.image, text, similar).id == Some(o.id)
      && d.clarity <= o.reg.plates[o.id].clarity
  {
    var o := Save(l, reg, tracker, opts, d, frame, text, similar);
    SaveReplacesWhole(l, reg, tracker, opts, d, frame, text, similar);
    StillFoundFirst(reg, o.reg, o.id, d.image, text, similar, |reg.order|);
  }

  /**
   A detection saved a second time, unchanged, finds the same plate and
   leaves its stored view as the first save left it; only the speed may
   move. Needs the similarity test to accept an image against itself
   (its mean squared difference is 0).
   */
  lemma ResaveIsIdempotent(l: Labelling, reg: Registry, tracker: Tracker, opts: Options, d: Candidate,
                           frame1: int, frame2: int, text: Option<string>, similar: (Image, Image) -> bool)
    requires Wf(reg)
    requires opts.measureSpeed ==> tracker.fps > 0.0
    requires similar(d.image, d.image)
    ensures
      var first := Save(l, reg, tracker, opts, d, frame1, text, similar);
      var second := Save(l, first.reg, first.tracker, opts, d, frame2, text, similar);
      && second.duplicate && second.id == first.id && second.write.None?
      && second.reg.order == first.reg.order && second.reg.counter == first.reg.counter
      && second.reg.plates[second.id] == first.reg.plates[first.id].(speed := second.reg.plates[second.id].speed)
  {
    var first := Save(l, reg, tracker, opts, d, frame1, text, similar);
    SaveIsFoundAgain(l, reg, tracker, opts, d, frame1, text, similar);
    SaveFeedsTrackerUnderId(l, reg, tracker, opts, d, frame1, text, similar);
    var second := Save(l, first.reg, first.tracker, opts, d, frame2, text, similar);
    SaveReplacesWhole(l, first.reg, first.tracker, opts, d, frame2, text, similar);
    SaveWritesWhenStored(l, first.reg, first.tracker, opts, d, frame2, text, similar);
  }
}
