/**
 The `plates` table of `ImageDatabase` as seen by `save_cv2_image`: rows
 keyed by the UNIQUE `plate_text` column, each with sqlite's row id. The
 PNG encoding of the image is left out; a row stores the image itself.
 */
module Store {
  import opened Wrappers
  import opened Geometry
  import opened PlateText

  /** One row of the table, apart from its `plate_text` key and capture date. */
  datatype Record = Record(
    row: nat,
    plateId: string,
    image: Image,
    clarity: real,
    conf: real,
    rotation: int,
    path: Option<string>,
    speed: Option<real>)

  /** The rows by text, and the row id sqlite hands out next. */
  datatype Table = Table(rows: map<string, Record>, nextRow: nat)

  const EmptyTable: Table := Table(map[], 1)

  /** Row ids are below the next one and no two rows share one. */
  ghost predicate Wf(t: Table) {
    && t.nextRow >= 1
    && (forall k :: k in t.rows ==> 1 <= t.rows[k].row < t.nextRow)
    && (forall k, k' :: k in t.rows && k' in t.rows && k != k' ==> t.rows[k].row != t.rows[k'].row)
  }

  lemma EmptyTableWf()
    ensures Wf(EmptyTable)
  {
  }

  /** `s` padded on the left with zeros to `width` characters, as `{n:0<width>d}` does. */
  function PadZeros(s: string, width: nat): (r: string)
    ensures |r| == if |s| < width then width else |s|
    ensures r[|r| - |s|..] == s
    ensures forall i :: 0 <= i < |r| - |s| ==> r[i] == '0'
    decreases width - |s|
  {
    if |s| < width then
      var r := PadZeros("0" + s, width);
      assert r[|r| - |s|..] == ("0" + s)[1..] == s;
      r
    else s
  }

  lemma {:induction false} LeadingZeroIgnored(s: string)
    ensures ParseDecimal("0" + s) == ParseDecimal(s)
    decreases |s|
  {
    if |s| > 0 {
      var z := "0" + s;
      assert z[..|z| - 1] == "0" + s[..|s| - 1];
      LeadingZeroIgnored(s[..|s| - 1]);
    }
  }

  lemma {:induction false} PaddingParsesBack(s: string, width: nat)
    ensures ParseDecimal(PadZeros(s, width)) == ParseDecimal(s)
    decreases width - |s|
  {
    if |s| < width {
      PaddingParsesBack("0" + s, width);
      LeadingZeroIgnored(s);
    }
  }

  const PlatePrefix: string := "PLATE"

  /** The `PLATE{n:03d}` label a plate is filed under. */
  function PlateLabel(n: nat): (s: string)
    ensures |s| >= |PlatePrefix| + 3 && s[..|PlatePrefix|] == PlatePrefix
    ensures forall i :: |PlatePrefix| <= i < |s| ==> '0' <= s[i] <= '9'
  {
    PaddedDigits(Decimal(n), 3);
    PlatePrefix + PadZeros(Decimal(n), 3)
  }

  /** Padding a digit string gives a digit string. */
  lemma PaddedDigits(s: string, width: nat)
    requires forall i :: 0 <= i < |s| ==> '0' <= s[i] <= '9'
    ensures forall i :: 0 <= i < |PadZeros(s, width)| ==> '0' <= PadZeros(s, width)[i] <= '9'
  {
    var r := PadZeros(s, width);
    var k := |r| - |s|;
    forall i | k <= i < |r|
      ensures r[i] == s[i - k]
    {
      assert r[k..][i - k] == r[i];
    }
  }

  /** Distinct plate numbers get distinct labels, so labels are fresh as the numbers are. */
  lemma PlateLabelInjective(a: nat, b: nat)
    requires PlateLabel(a) == PlateLabel(b)
    ensures a == b
  {
    assert PlateLabel(a)[|PlatePrefix|..] == PadZeros(Decimal(a), 3);
    assert PlateLabel(b)[|PlatePrefix|..] == PadZeros(Decimal(b), 3);
    PaddingParsesBack(Decimal(a), 3);
    PaddingParsesBack(Decimal(b), 3);
    DecimalRoundTrip(a);
    DecimalRoundTrip(b);
  }

  /** Python truthiness of `plate_text`: `None` and the empty string are false. */
  predicate HasText(text: Option<string>) {
    text.Some? && |text.value| > 0
  }

  /** The text generated for a write without one: `PLATE_{plate_id}_{int(time.time())}`. */
  function AutoText(plateId: string, now: nat): (r: string)
    ensures |r| > |plateId| + 7 && r[..6] == "PLATE_" && r[6..6 + |plateId|] == plateId
    ensures r[6 + |plateId|] == '_'
    ensures forall i :: 7 + |plateId| <= i < |r| ==> '0' <= r[i] <= '9'
  {
    "PLATE_" + plateId + "_" + Decimal(now)
  }

  /** Two generated texts for one plate differ whenever their clocks do. */
  lemma AutoTextInjective(plateId: string, a: nat, b: nat)
    requires AutoText(plateId, a) == AutoText(plateId, b)
    ensures a == b
  {
    var n := 7 + |plateId|;
    assert AutoText(plateId, a)[n..] == Decimal(a);
    assert AutoText(plateId, b)[n..] == Decimal(b);
    DecimalInjective(a, b);
  }

  /** The `plate_text` a write is stored under. */
  function KeyOf(plateId: string, text: Option<string>, now: nat): (r: string)
    ensures |r| > 0
    ensures HasText(text) ==> r == text.value
    ensures !HasText(text) ==> r == AutoText(plateId, now)
  {
    if HasText(text) then text.value else AutoText(plateId, now)
  }

  /** The arguments of one `save_cv2_image` call, apart from the text and the clock. */
  datatype Entry = Entry(
    plateId: string,
    image: Image,
    clarity: real,
    conf: real,
    rotation: int,
    path: Option<string>,
    speed: Option<real>)

  /** The table after the call and the row id the call returns. */
  datatype Upsert = Upsert(table: Table, row: Option<nat>)

  /**
   `save_cv2_image`. With a text: a stored row at least as clear only
   takes a given speed; a strictly clearer view overwrites image, clarity,
   confidence, rotation, path and speed, speed even when it is `None`; an
   unknown text inserts a row. Without a text the row is inserted under a
   generated text, read from the clock `now`; when that text is taken the
   insert fails on the UNIQUE constraint and nothing is returned.
   */
  function SaveImage(t: Table, e: Entry, text: Option<string>, now: nat): (u: Upsert)
    ensures u.table.rows.Keys == t.rows.Keys + (if u.row.Some? then {KeyOf(e.plateId, text, now)} else {})
    ensures forall k :: k in t.rows && k != KeyOf(e.plateId, text, now) ==> u.table.rows[k] == t.rows[k]
    ensures u.row.None? <==> !HasText(text) && KeyOf(e.plateId, text, now) in t.rows
    ensures u.row.None? ==> u.table == t
    ensures u.row.Some? ==>
      && KeyOf(e.plateId, text, now) in u.table.rows
      && u.row.value == u.table.rows[KeyOf(e.plateId, text, now)].row
  {
    var key := KeyOf(e.plateId, text, now);
    if key in t.rows then
      var prior := t.rows[key];
      if !HasText(text) then Upsert(t, None)
      else if e.clarity <= prior.clarity then
        var kept := if e.speed.Some? then prior.(speed := e.speed) else prior;
        Upsert(t.(rows := t.rows[key := kept]), Some(prior.row))
      else
        var clearer := Record(prior.row, prior.plateId, e.image, e.clarity, e.conf, e.rotation, e.path, e.speed);
        Upsert(t.(rows := t.rows[key := clearer]), Some(prior.row))
    else
      var added := Record(t.nextRow, e.plateId, e.image, e.clarity, e.conf, e.rotation, e.path, e.speed);
      Upsert(Table(t.rows[key := added], t.nextRow + 1), Some(t.nextRow))
  }

  /**
   A stored row at least as clear keeps everything but its speed, which
   changes only to a speed that was given; a strictly clearer view
   replaces all of the view's fields together and keeps the row id and
   plate label.
   */
  lemma SaveImageUpdates(t: Table, e: Entry, text: string, now: nat)
    requires |text| > 0 && text in t.rows
    ensures var u := SaveImage(t, e, Some(text), now);
      var prior := t.rows[text];
      && u.row == Some(prior.row) && u.table.nextRow == t.nextRow
      && (e.clarity <= prior.clarity ==>
            && u.table.rows[text] == prior.(speed := u.table.rows[text].speed)
            && u.table.rows[text].speed == (if e.speed.Some? then e.speed else prior.speed))
      && (e.clarity > prior.clarity ==>
            u.table.rows[text] == Record(prior.row, prior.plateId, e.image, e.clarity, e.conf, e.rotation, e.path, e.speed))
  {
  }

  /** A text not yet stored, or a generated one, gets a new row with the next row id. */
  lemma SaveImageInserts(t: Table, e: Entry, text: Option<string>, now: nat)
    requires KeyOf(e.plateId, text, now) !in t.rows
    ensures var u := SaveImage(t, e, text, now);
      && u.row == Some(t.nextRow) && u.table.nextRow == t.nextRow + 1
      && u.table.rows[KeyOf(e.plateId, text, now)]
         == Record(t.nextRow, e.plateId, e.image, e.clarity, e.conf, e.rotation, e.path, e.speed)
  {
  }

  /** Row ids stay distinct and below the next one. */
  lemma SaveImageKeepsWf(t: Table, e: Entry, text: Option<string>, now: nat)
    requires Wf(t)
    ensures Wf(SaveImage(t, e, text, now).table)
  {
    var u := SaveImage(t, e, text, now);
    var key := KeyOf(e.plateId, text, now);
    if u.row.Some? && key !in t.rows {
      SaveImageInserts(t, e, text, now);
      forall k, k' | k in u.table.rows && k' in u.table.rows && k != k'
        ensures u.table.rows[k].row != u.table.rows[k'].row
      {
        if k != key && k' != key {
          assert u.table.rows[k] == t.rows[k] && u.table.rows[k'] == t.rows[k'];
        }
      }
    } else if u.row.Some? {
      SaveImageUpdates(t, e, text.value, now);
      assert forall k :: k in u.table.rows ==> u.table.rows[k].row == t.rows[k].row;
    }
  }

  /** No stored clarity drops and no row changes its id. */
  lemma SaveImageKeepsClarity(t: Table, e: Entry, text: Option<string>, now: nat)
    ensures var u := SaveImage(t, e, text, now);
      forall k :: k in t.rows ==>
        && u.table.rows[k].clarity >= t.rows[k].clarity
        && u.table.rows[k].row == t.rows[k].row
  {
    var key := KeyOf(e.plateId, text, now);
    if key in t.rows && HasText(text) {
      SaveImageUpdates(t, e, text.value, now);
    }
  }

  /** The row stored under a text is at least as clear as every view written under it. */
  lemma SaveImageStoresAtLeast(t: Table, e: Entry, text: Option<string>, now: nat)
    requires HasText(text)
    ensures var u := SaveImage(t, e, text, now);
      text.value in u.table.rows && u.table.rows[text.value].clarity >= e.clarity
  {
    if text.value in t.rows {
      SaveImageUpdates(t, e, text.value, now);
    } else {
      SaveImageInserts(t, e, text, now);
    }
  }
}
