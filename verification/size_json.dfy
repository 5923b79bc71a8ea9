/** The serde-derived object encoding of `Size` (keys renamed to camelCase,
    which leaves these one-word names unchanged) and the database column
    decoder, which strips the optional marker and then parses JSON. JSON
    text itself is abstracted: an object is a map from keys to values, and
    the text parser is a parameter of the column decoder. */
module SizeJson {
  import opened Wrappers
  import opened Serde
  import Orientations
  import Scales
  import opened Sizes

  const ScaleKey: string := "scale"
  const OrientationKey: string := "orientation"
  const WidthKey: string := "width"
  const HeightKey: string := "height"

  /** The four keys of the record's object form. */
  const Keys: set<string> := {ScaleKey, OrientationKey, WidthKey, HeightKey}

  /** The derived `Serialize`: one entry per field, enums as their tokens. */
  function Encode(s: Size): (m: map<string, Json>)
    ensures m.Keys == Keys
    ensures m[WidthKey] == JInt(s.width as int) && m[HeightKey] == JInt(s.height as int)
    ensures m[ScaleKey] == JString(Scales.Display(s.scale))
    ensures m[OrientationKey] == JString(Orientations.Display(s.orientation))
  {
    map[ScaleKey := Scales.Serialize(s.scale),
        OrientationKey := Orientations.Serialize(s.orientation),
        WidthKey := JInt(s.width as int),
        HeightKey := JInt(s.height as int)]
  }

  /** Reading one `i32` field: an integer in range, otherwise an error. */
  function DecodeInt32(key: string, v: Json): (r: Result<Int32, DeError>)
    ensures r.Success? <==> v.JInt? && -0x8000_0000 <= v.num < 0x8000_0000
    ensures r.Success? ==> r.value as int == v.num
  {
    match v
    case JInt(n) =>
      if -0x8000_0000 <= n < 0x8000_0000 then Success(n as Int32) else Failure(InvalidValue(key))
    case _ => Failure(InvalidType(key))
  }

  /** Reading one enum field: `String::deserialize`, which needs a JSON
      string, followed by the enum's strict token match. */
  function DecodeScale(v: Json): (r: Result<Scales.Scale, DeError>)
    ensures r.Success? <==> v.JString? && Scales.Deserialize(v.str).Success?
    ensures r.Success? ==> r.value == Scales.Deserialize(v.str).value
  {
    match v
    case JString(t) => Scales.Deserialize(t)
    case _ => Failure(InvalidType(ScaleKey))
  }

  function DecodeOrientation(v: Json): (r: Result<Orientations.Orientation, DeError>)
    ensures r.Success? <==> v.JString? && Orientations.Deserialize(v.str).Success?
    ensures r.Success? ==> r.value == Orientations.Deserialize(v.str).value
  {
    match v
    case JString(t) => Orientations.Deserialize(t)
    case _ => Failure(InvalidType(OrientationKey))
  }

  /** Whether a value is one the record's field `key` accepts. Keys
      outside the record accept anything, since they are skipped. */
  predicate FieldAccepts(key: string, v: Json) {
    if key == ScaleKey then DecodeScale(v).Success?
    else if key == OrientationKey then DecodeOrientation(v).Success?
    else if key == WidthKey || key == HeightKey then DecodeInt32(key, v).Success?
    else true
  }

  /** Every record key that is present holds a value its field accepts. */
  predicate PresentValuesAccepted(m: map<string, Json>) {
    && (ScaleKey in m ==> FieldAccepts(ScaleKey, m[ScaleKey]))
    && (OrientationKey in m ==> FieldAccepts(OrientationKey, m[OrientationKey]))
    && (WidthKey in m ==> FieldAccepts(WidthKey, m[WidthKey]))
    && (HeightKey in m ==> FieldAccepts(HeightKey, m[HeightKey]))
  }

  /** The value read for `key` while walking the object, if the key is there. */
  function ReadPresent<T>(m: map<string, Json>, key: string, read: Json -> Result<T, DeError>): Result<Option<T>, DeError> {
    if key in m then
      var v :- read(m[key]);
      Success(Some(v))
    else Success(None)
  }

  /** The missing-field check made after the walk. */
  function Require<T>(key: string, o: Option<T>): Result<T, DeError> {
    match o
    case Some(v) => Success(v)
    case None => Failure(MissingField(key))
  }

  /** The derived `Deserialize`: each present value is read first, then
      every key must have been present, checked in field order. Keys
      outside the record are ignored. A successful read had all four keys,
      and each field comes from its key's value; every object with the four
      keys holding accepted values is read successfully. */
  function Decode(m: map<string, Json>): (r: Result<Size, DeError>)
    ensures r.Success? ==> Keys <= m.Keys
    ensures r.Success? ==> m[WidthKey] == JInt(r.value.width as int)
    ensures r.Success? ==> m[HeightKey] == JInt(r.value.height as int)
    ensures r.Success? ==>
      m[ScaleKey].JString? && Scales.Deserialize(m[ScaleKey].str) == Success(r.value.scale)
    ensures r.Success? ==>
      m[OrientationKey].JString? && Orientations.Deserialize(m[OrientationKey].str) == Success(r.value.orientation)
    ensures Keys <= m.Keys
      && m[ScaleKey].JString? && Scales.Deserialize(m[ScaleKey].str).Success?
      && m[OrientationKey].JString? && Orientations.Deserialize(m[OrientationKey].str).Success?
      && DecodeInt32(WidthKey, m[WidthKey]).Success?
      && DecodeInt32(HeightKey, m[HeightKey]).Success?
      ==> r.Success?
  {
    var scale :- ReadPresent(m, ScaleKey, DecodeScale);
    var orientation :- ReadPresent(m, OrientationKey, DecodeOrientation);
    var width :- ReadPresent(m, WidthKey, v => DecodeInt32(WidthKey, v));
    var height :- ReadPresent(m, HeightKey, v => DecodeInt32(HeightKey, v));
    var scale' :- Require(ScaleKey, scale);
    var orientation' :- Require(OrientationKey, orientation);
    var width' :- Require(WidthKey, width);
    var height' :- Require(HeightKey, height);
    Success(Size(scale', orientation', width', height'))
  }

  /** `serde_json::from_str::<Size>`: parse the text to an object, then
      read the record from it. */
  function ReadJson(t: string, parse: string -> Option<map<string, Json>>): Result<Size, DeError> {
    match parse(t)
    case None => Failure(Syntax)
    case Some(obj) => Decode(obj)
  }

  /** `Decode::decode` for the database column: strip the optional marker,
      parse the JSON text, then read the record from the object. */
  function DecodeColumn(raw: string, parse: string -> Option<map<string, Json>>): (r: Result<Size, DeError>)
    ensures !StartsWithMarker(raw) ==> r == ReadJson(raw, parse)
    ensures StartsWithMarker(raw) ==> r == ReadJson(raw[1..], parse)
  {
    ReadJson(StripMarker(raw), parse)
  }

  // ---------------------------------------------------------------------
  // Properties

  /** Object round trip: reading an encoded size gives it back. */
  lemma RoundTrip(s: Size)
    ensures Decode(Encode(s)) == Success(s)
  {
    Scales.StrictRoundTrip(s.scale);
    Orientations.StrictRoundTrip(s.orientation);
  }

  /** Reading a record is insensitive to keys it does not know. */
  lemma ExtraKeysIgnored(m: map<string, Json>, k: string, v: Json)
    requires k !in Keys
    ensures Decode(m[k := v]) == Decode(m)
  {
  }

  /** Reading fails whenever a key is absent, and the error names a
      missing field when every present key holds an accepted value. */
  lemma MissingKeyFails(m: map<string, Json>)
    ensures !(Keys <= m.Keys) ==> Decode(m).Failure?
    ensures !(Keys <= m.Keys) && PresentValuesAccepted(m) ==> Decode(m).error.MissingField?
  {
  }

  /** A present value its field rejects is reported before any missing
      field. */
  lemma RejectedValueBeforeMissing(m: map<string, Json>, key: string)
    requires key in Keys && key in m && !FieldAccepts(key, m[key])
    ensures Decode(m).Failure? && !Decode(m).error.MissingField?
  {
  }

  /** A stored value reads the same with or without the marker in front. */
  lemma MarkerTolerated(t: string, parse: string -> Option<map<string, Json>>)
    requires !StartsWithMarker(t)
    ensures DecodeColumn([Marker] + t, parse) == DecodeColumn(t, parse)
  {
    StripAfterMarker(t);
  }

  /** Text that does not parse as JSON once the marker is stripped is
      rejected, marker or no marker. */
  lemma UnparsableRejected(t: string, parse: string -> Option<map<string, Json>>)
    requires !StartsWithMarker(t)
    requires parse(t).None?
    ensures DecodeColumn(t, parse) == Failure(Syntax)
    ensures DecodeColumn([Marker] + t, parse) == Failure(Syntax)
  {
    StripAfterMarker(t);
  }

  /** Stored round trip: if the JSON text parses to the object form of a
      size, the column reads back that size, marker or no marker. */
  lemma StoredRoundTrip(s: Size, text: string, parse: string -> Option<map<string, Json>>)
    requires !StartsWithMarker(text)
    requires parse(text) == Some(Encode(s))
    ensures DecodeColumn(text, parse) == Success(s)
    ensures DecodeColumn([Marker] + text, parse) == Success(s)
  {
    RoundTrip(s);
    StripAfterMarker(text);
  }
}
