/**
 `SpeedDetector`: per plate, the frame numbers it was seen at in arrival
 order and the last plausible speed derived from the first and last of
 them.
 */
module Speed {
  import opened Wrappers

  /** A plate identity: the number `n` of its `PLATE{n:03d}` name. */
  type PlateId = nat

  /** Fewer frames between first and last sighting give no speed. */
  const MinFrameGap: int := 5
  /** Speeds above this many km/h are taken as detection errors. */
  const MaxPlausibleSpeed: real := 200.0
  /** m/s to km/h. */
  const KmhPerMs: real := 3.6

  datatype Tracker = Tracker(
    fps: real,
    distance: real,
    frames: map<PlateId, seq<int>>,
    speeds: map<PlateId, real>)

  function NewTracker(fps: real, distance: real): (r: Tracker)
    ensures r.fps == fps && r.distance == distance
    ensures forall id :: Frames(r, id) == [] && GetSpeed(r, id).None?
  {
    Tracker(fps, distance, map[], map[])
  }

  /** The frames recorded for `id`; none when it has not been seen. */
  function Frames(t: Tracker, id: PlateId): seq<int> {
    if id in t.frames then t.frames[id] else []
  }

  /** `get_speed`: the stored speed, if any. */
  function GetSpeed(t: Tracker, id: PlateId): (r: Option<real>)
    ensures r.Some? <==> id in t.speeds
    ensures r.Some? ==> r.value == t.speeds[id]
  {
    if id in t.speeds then Some(t.speeds[id]) else None
  }

  /** Frames between the oldest and the newest recorded sighting. */
  function Span(fs: seq<int>): int
    requires |fs| >= 1
  {
    fs[|fs| - 1] - fs[0]
  }

  /** km/h when `distance` metres are covered in `gap` frames at `fps`. */
  function SpeedOver(fps: real, distance: real, gap: int): real
    requires fps > 0.0 && gap > 0
  {
    distance / (gap as real / fps) * KmhPerMs
  }

  /** Covering the distance at the computed speed takes exactly the elapsed time. */
  lemma SpeedOverMeaning(fps: real, distance: real, gap: int)
    requires fps > 0.0 && gap > 0
    ensures SpeedOver(fps, distance, gap) * (gap as real / fps) == KmhPerMs * distance
    ensures distance >= 0.0 ==> SpeedOver(fps, distance, gap) >= 0.0
  {
    var t := gap as real / fps;
    assert t > 0.0;
    assert distance / t * t == distance;
  }

  /** Whether `calculate_speed` yields a speed for this frame list. */
  predicate Produces(fps: real, distance: real, fs: seq<int>)
    requires fps > 0.0
  {
    |fs| >= 2 && Span(fs) >= MinFrameGap && SpeedOver(fps, distance, Span(fs)) <= MaxPlausibleSpeed
  }

  datatype Calculation = Calculation(speed: Option<real>, tracker: Tracker)

  /**
   `calculate_speed`: nothing, and no change, with fewer than two frames,
   a span under 5 frames, or a speed above 200 km/h; otherwise the speed
   is stored and returned. Only the first and last frame are used.
   */
  function CalculateSpeed(t: Tracker, id: PlateId): (c: Calculation)
    requires t.fps > 0.0
    requires id in t.frames
    ensures c.speed.Some? <==> Produces(t.fps, t.distance, t.frames[id])
    ensures c.speed.None? ==> c.tracker == t
    ensures c.speed.Some? ==>
      && c.tracker == t.(speeds := t.speeds[id := c.speed.value])
      && c.speed.value <= MaxPlausibleSpeed
      && c.speed.value * (Span(t.frames[id]) as real / t.fps) == KmhPerMs * t.distance
  {
    var fs := t.frames[id];
    if |fs| < 2 then Calculation(None, t)
    else
      var gap := fs[|fs| - 1] - fs[0];
      if gap < MinFrameGap then Calculation(None, t)
      else
        var v := t.distance / (gap as real / t.fps) * KmhPerMs;
        if v > MaxPlausibleSpeed then Calculation(None, t)
        else
          SpeedOverMeaning(t.fps, t.distance, gap);
          Calculation(Some(v), t.(speeds := t.speeds[id := v]))
  }

  /**
   `add_detection`: appends the frame to the plate's list, then computes
   the speed once the list holds two frames or more.
   */
  function AddDetection(t: Tracker, id: PlateId, frame: int): (r: Tracker)
    requires t.fps > 0.0
    ensures r.frames == t.frames[id := Frames(t, id) + [frame]]
    ensures r.fps == t.fps && r.distance == t.distance
    ensures Produces(t.fps, t.distance, Frames(t, id) + [frame]) ==>
      r.speeds == t.speeds[id := SpeedOver(t.fps, t.distance, Span(Frames(t, id) + [frame]))]
    ensures !Produces(t.fps, t.distance, Frames(t, id) + [frame]) ==> r.speeds == t.speeds
  {
    var appended := Frames(t, id) + [frame];
    var t1 := t.(frames := t.frames[id := appended]);
    if |appended| >= 2 then CalculateSpeed(t1, id).tracker else t1
  }

  /** Every stored speed is at most the plausibility ceiling. */
  ghost predicate Plausible(t: Tracker) {
    forall id :: id in t.speeds ==> t.speeds[id] <= MaxPlausibleSpeed
  }

  lemma AddDetectionKeepsPlausible(t: Tracker, id: PlateId, frame: int)
    requires t.fps > 0.0 && Plausible(t)
    ensures Plausible(AddDetection(t, id, frame))
  {
  }

  /** Other plates' frames and speeds are untouched by a detection of `id`. */
  lemma AddDetectionIsLocal(t: Tracker, id: PlateId, frame: int, other: PlateId)
    requires t.fps > 0.0 && other != id
    ensures Frames(AddDetection(t, id, frame), other) == Frames(t, other)
    ensures GetSpeed(AddDetection(t, id, frame), other) == GetSpeed(t, other)
  {
  }

  /** The result depends on the first and last frames only. */
  lemma OnlyEndpointsMatter(fps: real, distance: real, fs: seq<int>, gs: seq<int>)
    requires fps > 0.0 && |fs| >= 2 && |gs| >= 2
    requires fs[0] == gs[0] && fs[|fs| - 1] == gs[|gs| - 1]
    ensures Produces(fps, distance, fs) == Produces(fps, distance, gs)
    ensures Span(fs) == Span(gs)
  {
  }

  /** 30 fps, 15 m, frames 10 then 40: one second, 54 km/h. */
  lemma WorkedExample()
    ensures GetSpeed(AddDetection(AddDetection(NewTracker(30.0, 15.0), 1, 10), 1, 40), 1) == Some(54.0)
  {
    var t := AddDetection(NewTracker(30.0, 15.0), 1, 10);
    assert Frames(t, 1) + [40] == [10, 40];
    assert SpeedOver(30.0, 15.0, 30) == 54.0;
  }

  /** Frames 10 and 11 are one frame apart: no speed. */
  lemma ShortGapExample()
    ensures GetSpeed(AddDetection(AddDetection(NewTracker(30.0, 15.0), 1, 10), 1, 11), 1) == None
  {
    var t := AddDetection(NewTracker(30.0, 15.0), 1, 10);
    assert Frames(t, 1) + [11] == [10, 11];
  }

  /**
   Frames 10 and 15 give a 5-frame span and 324 km/h, which is discarded:
   no speed is stored. A later sighting at frame 40 gives 54 km/h, which
   is. (In the loop frame numbers only grow, so the span only widens.)
   */
  lemma ImplausibleIsDiscarded()
    ensures
      var t := AddDetection(AddDetection(NewTracker(30.0, 15.0), 1, 10), 1, 15);
      && GetSpeed(t, 1) == None
      && GetSpeed(AddDetection(t, 1, 40), 1) == Some(54.0)
  {
    var t0 := AddDetection(NewTracker(30.0, 15.0), 1, 10);
    assert Frames(t0, 1) + [15] == [10, 15];
    assert SpeedOver(30.0, 15.0, 5) == 324.0;
    var t := AddDetection(t0, 1, 15);
    assert Frames(t, 1) + [40] == [10, 15, 40];
    assert SpeedOver(30.0, 15.0, 30) == 54.0;
  }
}
