/**
 The binary framing of the vision stream (`vision_gateway/vision_stream.py`). JSON text is a pair of
 functions, assumed to read back what it printed; the patterns for ids, media types and suspicious keys are
 opaque predicates. Numbers are exact and finite.
 */
module WireCodec {
  import opened Common
  import opened Bytes

  const MAGIC: seq<byte> := [77, 67, 77, 49]
  const PREFIX_SIZE := 8
  const MAX_METADATA_BYTES := 65535

  /** A parsed JSON value. Python keeps integers and floats apart. */
  datatype Json =
    | JNull
    | JBool(bit: bool)
    | JInt(whole: int)
    | JFloat(number: real)
    | JString(text: string)
    | JList(items: seq<Json>)
    | JObject(fields: map<string, Json>)

  /**
   The text form of JSON: `json.dumps(...).encode` and `json.loads(...decode())`. What a theorem needs of it
   is that the one value it prints is read back, never that all real numbers have a text.
   */
  datatype TextCodec = TextCodec(dumps: Json -> seq<byte>, loads: seq<byte> -> Option<Json>) {
    predicate Restores(v: Json) {
      loads(dumps(v)) == Some(v)
    }
  }

  datatype Rules = Rules(isId: string -> bool, isMediaType: string -> bool, smugglesMedia: string -> bool) {
    /** None of the contract's own field names is taken for embedded media. */
    ghost predicate Admit() {
      forall k :: k in FRAME_FIELDS + LAYOUT_FIELDS + RECT_FIELDS + CAMERA_FIELDS + MARKER_FIELDS + {"calibration_target"} ==>
        !smugglesMedia(k)
    }
  }

  const FRAME_FIELDS := {"type", "protocol_version", "session_id", "video_id", "frame_id", "sequence",
                         "captured_at_mono_ms", "video_time_ms", "playback_epoch", "layout", "camera_frame"}
  const LAYOUT_FIELDS := {"viewport_width_px", "viewport_height_px", "source_width_px", "source_height_px",
                          "object_fit", "element_rect", "content_rect"}
  const RECT_FIELDS := {"x_px", "y_px", "width_px", "height_px"}
  const CAMERA_FIELDS := {"encoding", "width_px", "height_px", "byte_length"}
  const MARKER_FIELDS := {"calibration_id", "target_id", "presented_at_mono_ms"}

  datatype FrameMetadata = FrameMetadata(
    sessionId: string, videoId: string, frameId: string, sequence: nat, capturedAt: real, videoTime: nat, epoch: nat,
    layout: map<string, Json>, encoding: string, width: nat, height: nat, byteLength: nat,
    calibrationTarget: Option<map<string, Json>>)

  // ----- Field validators -----

  function Field(v: map<string, Json>, name: string): Json {
    if name in v then v[name] else JNull
  }

  /** `isinstance(value, (int, float))`, booleans excluded */
  function NumberOf(v: Json): Option<real> {
    match v
    case JInt(i) => Some(i as real)
    case JFloat(x) => Some(x)
    case _ => None
  }

  predicate Positive(v: Json) {
    NumberOf(v).Some? && NumberOf(v).value > 0.0
  }

  predicate IdField(rules: Rules, v: Json) {
    v.JString? && rules.isId(v.text)
  }

  predicate NonNegativeInt(v: Json) {
    v.JInt? && v.whole >= 0
  }

  predicate NonNegativeNumber(v: Json) {
    NumberOf(v).Some? && NumberOf(v).value >= 0.0
  }

  predicate PositiveInt(v: Json) {
    v.JInt? && v.whole > 0
  }

  predicate RectValid(v: Json) {
    && v.JObject? && v.fields.Keys == RECT_FIELDS
    && NumberOf(Field(v.fields, "x_px")).Some? && NumberOf(Field(v.fields, "y_px")).Some?
    && Positive(Field(v.fields, "width_px")) && Positive(Field(v.fields, "height_px"))
  }

  /** `_validate_layout` */
  predicate LayoutValid(layout: map<string, Json>) {
    && layout.Keys == LAYOUT_FIELDS && Field(layout, "object_fit") == JString("contain")
    && Positive(Field(layout, "viewport_width_px")) && Positive(Field(layout, "viewport_height_px"))
    && Positive(Field(layout, "source_width_px")) && Positive(Field(layout, "source_height_px"))
    && RectValid(Field(layout, "element_rect")) && RectValid(Field(layout, "content_rect"))
  }

  /** `validate_target_marker` */
  predicate MarkerValid(rules: Rules, marker: map<string, Json>) {
    && marker.Keys == MARKER_FIELDS
    && IdField(rules, Field(marker, "calibration_id")) && IdField(rules, Field(marker, "target_id"))
    && NumberOf(Field(marker, "presented_at_mono_ms")).Some?
    && 0.0 <= NumberOf(Field(marker, "presented_at_mono_ms")).value <= 1000000000000000.0
  }

  predicate CameraValid(rules: Rules, v: Json) {
    && v.JObject? && v.fields.Keys == CAMERA_FIELDS
    && Field(v.fields, "encoding").JString? && rules.isMediaType(Field(v.fields, "encoding").text)
    && PositiveInt(Field(v.fields, "width_px")) && PositiveInt(Field(v.fields, "height_px"))
    && PositiveInt(Field(v.fields, "byte_length"))
  }

  /** `_reject_embedded_media`, negated: no key at any depth looks like smuggled image data. */
  predicate FreeOfMedia(rules: Rules, v: Json) {
    match v
    case JObject(fields) => forall k :: k in fields ==> !rules.smugglesMedia(k) && FreeOfMedia(rules, fields[k])
    case JList(items) => forall i :: 0 <= i < |items| ==> FreeOfMedia(rules, items[i])
    case _ => true
  }

  // ----- Payloads -----

  /** `FrameMetadata.as_payload` */
  function AsPayload(m: FrameMetadata): Json {
    JObject(if m.calibrationTarget.Some? then BaseFields(m)["calibration_target" := JObject(m.calibrationTarget.value)]
            else BaseFields(m))
  }

  /** Every check of `FrameMetadata.from_payload`. */
  predicate PayloadValid(rules: Rules, v: map<string, Json>) {
    && v.Keys - {"calibration_target"} == FRAME_FIELDS
    && Field(v, "type") == JString("frame") && Field(v, "protocol_version") == JString("1.0")
    && FreeOfMedia(rules, JObject(v))
    && IdField(rules, Field(v, "session_id")) && IdField(rules, Field(v, "video_id")) && IdField(rules, Field(v, "frame_id"))
    && NonNegativeInt(Field(v, "sequence")) && NonNegativeNumber(Field(v, "captured_at_mono_ms"))
    && NonNegativeInt(Field(v, "video_time_ms")) && NonNegativeInt(Field(v, "playback_epoch"))
    && Field(v, "layout").JObject? && LayoutValid(Field(v, "layout").fields)
    && CameraValid(rules, Field(v, "camera_frame"))
    && ("calibration_target" in v ==>
      v["calibration_target"].JObject? && MarkerValid(rules, v["calibration_target"].fields))
  }

  /** `FrameMetadata.from_payload` */
  function FromPayload(rules: Rules, v: map<string, Json>): Option<FrameMetadata> {
    if !PayloadValid(rules, v) then None
    else
      var camera := Field(v, "camera_frame").fields;
      Some(FrameMetadata(Field(v, "session_id").text, Field(v, "video_id").text, Field(v, "frame_id").text,
                         Field(v, "sequence").whole, NumberOf(Field(v, "captured_at_mono_ms")).value,
                         Field(v, "video_time_ms").whole, Field(v, "playback_epoch").whole, Field(v, "layout").fields,
                         Field(camera, "encoding").text, Field(camera, "width_px").whole, Field(camera, "height_px").whole,
                         Field(camera, "byte_length").whole,
                         if "calibration_target" in v then Some(v["calibration_target"].fields) else None))
  }

  /** What any decoded metadata satisfies. */
  predicate MetadataValid(rules: Rules, m: FrameMetadata) {
    && rules.isId(m.sessionId) && rules.isId(m.videoId) && rules.isId(m.frameId) && m.capturedAt >= 0.0
    && LayoutValid(m.layout) && rules.isMediaType(m.encoding) && m.width > 0 && m.height > 0 && m.byteLength > 0
    && (m.calibrationTarget.Some? ==> MarkerValid(rules, m.calibrationTarget.value))
  }

  lemma DecodedIsValid(rules: Rules, v: map<string, Json>)
    requires FromPayload(rules, v).Some?
    ensures MetadataValid(rules, FromPayload(rules, v).value)
  {
    hide LayoutValid, MarkerValid, FreeOfMedia;
  }

  lemma ScalarsAreFree(rules: Rules, fields: map<string, Json>)
    requires forall k :: k in fields ==> !rules.smugglesMedia(k) && !fields[k].JObject? && !fields[k].JList?
    ensures FreeOfMedia(rules, JObject(fields))
  {
  }

  lemma RectIsFree(rules: Rules, v: Json)
    requires rules.Admit() && RectValid(v)
    ensures FreeOfMedia(rules, v)
  {
    forall k | k in v.fields ensures !rules.smugglesMedia(k) && !v.fields[k].JObject? && !v.fields[k].JList? {
      assert k in RECT_FIELDS;
      assert NumberOf(Field(v.fields, k)).Some?;
    }
    ScalarsAreFree(rules, v.fields);
  }

  lemma LayoutValue(layout: map<string, Json>, k: string)
    requires LayoutValid(layout) && k in layout
    ensures RectValid(layout[k]) || Positive(layout[k]) || layout[k] == JString("contain")
  {
    hide RectValid, Positive;
    assert k in LAYOUT_FIELDS;
    assert Field(layout, k) == layout[k];
  }

  lemma ScalarIsFree(rules: Rules, v: Json)
    requires !v.JObject? && !v.JList?
    ensures FreeOfMedia(rules, v)
  {
  }

  lemma ObjectIsFree(rules: Rules, fields: map<string, Json>)
    requires forall k :: k in fields ==> !rules.smugglesMedia(k) && FreeOfMedia(rules, fields[k])
    ensures FreeOfMedia(rules, JObject(fields))
  {
  }

  lemma KnownField(rules: Rules, k: string)
    requires rules.Admit()
    requires k in FRAME_FIELDS || k in LAYOUT_FIELDS || k in RECT_FIELDS || k in CAMERA_FIELDS || k in MARKER_FIELDS
             || k == "calibration_target"
    ensures !rules.smugglesMedia(k)
  {
    hide FRAME_FIELDS, LAYOUT_FIELDS, RECT_FIELDS, CAMERA_FIELDS, MARKER_FIELDS;
  }

  /** Layout, camera and marker fields never look like smuggled media. */
  lemma LayoutIsFree(rules: Rules, layout: map<string, Json>)
    requires rules.Admit() && LayoutValid(layout)
    ensures FreeOfMedia(rules, JObject(layout))
  {
    assert layout.Keys == LAYOUT_FIELDS;
    hide LayoutValid, RectValid, FreeOfMedia, LAYOUT_FIELDS, RECT_FIELDS, FRAME_FIELDS, CAMERA_FIELDS, MARKER_FIELDS, Rules.Admit;
    forall k | k in layout ensures !rules.smugglesMedia(k) && FreeOfMedia(rules, layout[k]) {
      KnownField(rules, k);
      LayoutValue(layout, k);
      if RectValid(layout[k]) {
        RectIsFree(rules, layout[k]);
      } else {
        ScalarIsFree(rules, layout[k]);
      }
    }
    ObjectIsFree(rules, layout);
  }

  lemma MarkerIsFree(rules: Rules, marker: map<string, Json>)
    requires rules.Admit() && MarkerValid(rules, marker)
    ensures FreeOfMedia(rules, JObject(marker))
  {
    forall k | k in marker ensures !rules.smugglesMedia(k) && !marker[k].JObject? && !marker[k].JList? {
      assert k in MARKER_FIELDS;
      assert Field(marker, k) == marker[k];
    }
    ScalarsAreFree(rules, marker);
  }

  function CameraFields(m: FrameMetadata): map<string, Json> {
    map["encoding" := JString(m.encoding), "width_px" := JInt(m.width), "height_px" := JInt(m.height),
        "byte_length" := JInt(m.byteLength)]
  }

  lemma CameraIs(rules: Rules, m: FrameMetadata)
    requires MetadataValid(rules, m) && rules.Admit()
    ensures CameraValid(rules, JObject(CameraFields(m))) && FreeOfMedia(rules, JObject(CameraFields(m)))
    ensures Field(CameraFields(m), "encoding") == JString(m.encoding)
    ensures Field(CameraFields(m), "width_px") == JInt(m.width) && Field(CameraFields(m), "height_px") == JInt(m.height)
    ensures Field(CameraFields(m), "byte_length") == JInt(m.byteLength)
  {
    hide LayoutValid, MarkerValid;
    var fields := CameraFields(m);
    assert fields.Keys == CAMERA_FIELDS;
    forall k | k in fields ensures !rules.smugglesMedia(k) && !fields[k].JObject? && !fields[k].JList? {
      KnownField(rules, k);
    }
    ScalarsAreFree(rules, fields);
  }

  function BaseFields(m: FrameMetadata): map<string, Json> {
    map["type" := JString("frame"), "protocol_version" := JString("1.0"), "session_id" := JString(m.sessionId),
        "video_id" := JString(m.videoId), "frame_id" := JString(m.frameId), "sequence" := JInt(m.sequence),
        "captured_at_mono_ms" := JFloat(m.capturedAt), "video_time_ms" := JInt(m.videoTime),
        "playback_epoch" := JInt(m.epoch), "layout" := JObject(m.layout),
        "camera_frame" := JObject(CameraFields(m))]
  }

  lemma BaseKeys(m: FrameMetadata)
    ensures BaseFields(m).Keys == FRAME_FIELDS && "calibration_target" !in BaseFields(m)
  {
    assert BaseFields(m).Keys == FRAME_FIELDS;
  }

  ghost predicate Carries(v: map<string, Json>, m: FrameMetadata) {
    && Field(v, "type") == JString("frame") && Field(v, "protocol_version") == JString("1.0")
    && Field(v, "session_id") == JString(m.sessionId) && Field(v, "video_id") == JString(m.videoId)
    && Field(v, "frame_id") == JString(m.frameId) && Field(v, "sequence") == JInt(m.sequence)
    && Field(v, "captured_at_mono_ms") == JFloat(m.capturedAt) && Field(v, "video_time_ms") == JInt(m.videoTime)
    && Field(v, "playback_epoch") == JInt(m.epoch) && Field(v, "layout") == JObject(m.layout)
    && Field(v, "camera_frame") == JObject(CameraFields(m))
  }

  lemma BaseLookups(m: FrameMetadata)
    ensures Carries(BaseFields(m), m)
  {
    hide CameraFields;
  }

  lemma WithTarget(m: FrameMetadata, target: Json)
    requires Carries(BaseFields(m), m)
    ensures Carries(BaseFields(m)["calibration_target" := target], m)
  {
    hide BaseFields, CameraFields;
  }

  lemma BaseValue(m: FrameMetadata, k: string)
    requires k in BaseFields(m)
    ensures k in FRAME_FIELDS
    ensures var v := BaseFields(m)[k];
      v == JObject(m.layout) || v == JObject(CameraFields(m)) || (!v.JObject? && !v.JList?)
  {
    hide CameraFields, FRAME_FIELDS;
    BaseKeys(m);
  }

  lemma BaseIsFree(rules: Rules, m: FrameMetadata)
    requires MetadataValid(rules, m) && rules.Admit()
    ensures forall k :: k in BaseFields(m) ==> !rules.smugglesMedia(k) && FreeOfMedia(rules, BaseFields(m)[k])
  {
    hide BaseFields, CameraFields, LayoutValid, FreeOfMedia, MarkerValid, Rules.Admit, FRAME_FIELDS;
    CameraIs(rules, m);
    LayoutIsFree(rules, m.layout);
    forall k | k in BaseFields(m) ensures !rules.smugglesMedia(k) && FreeOfMedia(rules, BaseFields(m)[k]) {
      BaseValue(m, k);
      KnownField(rules, k);
      if BaseFields(m)[k] != JObject(m.layout) && BaseFields(m)[k] != JObject(CameraFields(m)) {
        ScalarIsFree(rules, BaseFields(m)[k]);
      }
    }
  }

  lemma PayloadIsFree(rules: Rules, m: FrameMetadata)
    requires MetadataValid(rules, m) && rules.Admit()
    ensures FreeOfMedia(rules, AsPayload(m))
  {
    BaseIsFree(rules, m);
    hide BaseFields, FreeOfMedia, LayoutValid, MarkerValid, Rules.Admit;
    if m.calibrationTarget.Some? {
      MarkerIsFree(rules, m.calibrationTarget.value);
      KnownField(rules, "calibration_target");
    }
    ObjectIsFree(rules, AsPayload(m).fields);
  }

  lemma PayloadKeys(m: FrameMetadata)
    ensures AsPayload(m).fields.Keys - {"calibration_target"} == FRAME_FIELDS
    ensures "calibration_target" in AsPayload(m).fields <==> m.calibrationTarget.Some?
    ensures m.calibrationTarget.Some? ==>
      AsPayload(m).fields["calibration_target"] == JObject(m.calibrationTarget.value)
  {
    hide BaseFields, FRAME_FIELDS;
    BaseKeys(m);
  }

  /** A payload that carries valid metadata, and nothing else, parses back to it. */
  lemma CarriedParses(rules: Rules, v: map<string, Json>, m: FrameMetadata)
    requires MetadataValid(rules, m) && Carries(v, m) && v.Keys - {"calibration_target"} == FRAME_FIELDS
    requires FreeOfMedia(rules, JObject(v)) && CameraValid(rules, JObject(CameraFields(m)))
    requires Field(CameraFields(m), "encoding") == JString(m.encoding)
    requires Field(CameraFields(m), "width_px") == JInt(m.width) && Field(CameraFields(m), "height_px") == JInt(m.height)
    requires Field(CameraFields(m), "byte_length") == JInt(m.byteLength)
    requires "calibration_target" in v <==> m.calibrationTarget.Some?
    requires m.calibrationTarget.Some? ==> v["calibration_target"] == JObject(m.calibrationTarget.value)
    ensures FromPayload(rules, v) == Some(m)
  {
    hide CameraFields, LayoutValid, MarkerValid, FreeOfMedia, FRAME_FIELDS, CameraValid, Field;
  }

  /** Printing and parsing metadata loses nothing. */
  lemma PayloadRoundTrip(rules: Rules, m: FrameMetadata)
    requires MetadataValid(rules, m) && rules.Admit()
    ensures FromPayload(rules, AsPayload(m).fields) == Some(m)
  {
    hide BaseFields, CameraFields, LayoutValid, MarkerValid, FreeOfMedia, FRAME_FIELDS, Field, Rules.Admit, Carries,
      MetadataValid, CameraValid, FromPayload;
    BaseLookups(m);
    if m.calibrationTarget.Some? {
      WithTarget(m, JObject(m.calibrationTarget.value));
    }
    CameraIs(rules, m);
    PayloadKeys(m);
    PayloadIsFree(rules, m);
    CarriedParses(rules, AsPayload(m).fields, m);
  }

  // ----- Framing -----

  datatype WireError = ProtocolError | FrameTooLarge

  datatype BinaryFrame = BinaryFrame(metadata: FrameMetadata, image: seq<byte>)

  /** `encode_binary_frame` */
  function Encode(codec: TextCodec, metadata: Json, image: seq<byte>): Result<seq<byte>, WireError> {
    var header := codec.dumps(metadata);
    if |header| > MAX_METADATA_BYTES then Err(FrameTooLarge) else Ok(MAGIC + BigEndian(|header|) + header + image)
  }

  /** `decode_binary_frame` */
  function Decode(rules: Rules, codec: TextCodec, message: seq<byte>, maxFrameBytes: nat): Result<BinaryFrame, WireError> {
    if |message| < PREFIX_SIZE then Err(ProtocolError)
    else if message[..4] != MAGIC then Err(ProtocolError)
    else
      var length := FromBigEndian(message[4..8]);
      if length > MAX_METADATA_BYTES then Err(FrameTooLarge)
      else if PREFIX_SIZE + length > |message| then Err(ProtocolError)
      else
        var image := message[PREFIX_SIZE + length..];
        if |image| > maxFrameBytes then Err(FrameTooLarge)
        else
          var raw := codec.loads(message[PREFIX_SIZE..PREFIX_SIZE + length]);
          if raw.None? || !raw.value.JObject? then Err(ProtocolError)
          else
            var metadata := FromPayload(rules, raw.value.fields);
            if metadata.None? || metadata.value.byteLength != |image| then Err(ProtocolError)
            else Ok(BinaryFrame(metadata.value, image))
  }

  lemma Framed(header: seq<byte>, image: seq<byte>)
    requires |header| <= MAX_METADATA_BYTES
    ensures var message := MAGIC + BigEndian(|header|) + header + image;
      && |message| == PREFIX_SIZE + |header| + |image| && message[..4] == MAGIC
      && message[4..8] == BigEndian(|header|)
      && message[PREFIX_SIZE..PREFIX_SIZE + |header|] == header && message[PREFIX_SIZE + |header|..] == image
  {
  }

  /** Every valid frame within the limits survives the wire unchanged. */
  lemma WireRoundTrip(rules: Rules, codec: TextCodec, m: FrameMetadata, image: seq<byte>, maxFrameBytes: nat)
    requires rules.Admit() && codec.Restores(AsPayload(m)) && MetadataValid(rules, m)
    requires m.byteLength == |image| <= maxFrameBytes && |codec.dumps(AsPayload(m))| <= MAX_METADATA_BYTES
    ensures Encode(codec, AsPayload(m), image).Ok?
    ensures Decode(rules, codec, Encode(codec, AsPayload(m), image).value, maxFrameBytes) == Ok(BinaryFrame(m, image))
  {
    hide AsPayload, FromPayload, MetadataValid, Rules.Admit, BigEndian, FromBigEndian;
    var header := codec.dumps(AsPayload(m));
    Framed(header, image);
    BigEndianRoundTrip(|header|);
    PayloadRoundTrip(rules, m);
    PayloadIsObject(m);
  }

  lemma PayloadIsObject(m: FrameMetadata)
    ensures AsPayload(m).JObject?
  {
    hide BaseFields;
  }

  /** An accepted message is magic, big-endian header length, header, and an image of the declared length. */
  lemma AcceptedShape(rules: Rules, codec: TextCodec, message: seq<byte>, maxFrameBytes: nat)
    requires Decode(rules, codec, message, maxFrameBytes).Ok?
    ensures var f := Decode(rules, codec, message, maxFrameBytes).value;
      && MetadataValid(rules, f.metadata) && f.metadata.byteLength == |f.image| <= maxFrameBytes
      && exists header :: |header| <= MAX_METADATA_BYTES
                          && message == MAGIC + BigEndian(|header|) + header + f.image
                          && codec.loads(header).Some? && codec.loads(header).value.JObject?
                          && FromPayload(rules, codec.loads(header).value.fields) == Some(f.metadata)
  {
    hide FromPayload, MetadataValid, BigEndian, FromBigEndian;
    var length := FromBigEndian(message[4..8]);
    var header := message[PREFIX_SIZE..PREFIX_SIZE + length];
    BigEndianUnique(message[4..8]);
    assert message == message[..4] + message[4..8] + header + message[PREFIX_SIZE + length..];
    DecodedIsValid(rules, codec.loads(header).value.fields);
  }

  /**
   Forwarding to the Eye worker loses nothing: re-encoding a decoded frame is refused for its header's size
   or decodes to the same frame.
   */
  lemma ReencodingLosesNothing(rules: Rules, codec: TextCodec, message: seq<byte>, maxFrameBytes: nat)
    requires rules.Admit() && Decode(rules, codec, message, maxFrameBytes).Ok?
    requires codec.Restores(AsPayload(Decode(rules, codec, message, maxFrameBytes).value.metadata))
    ensures var f := Decode(rules, codec, message, maxFrameBytes).value;
      var again := Encode(codec, AsPayload(f.metadata), f.image);
      if |codec.dumps(AsPayload(f.metadata))| > MAX_METADATA_BYTES then again == Err(FrameTooLarge)
      else again.Ok? && Decode(rules, codec, again.value, maxFrameBytes) == Ok(f)
  {
    hide AsPayload, FromPayload, MetadataValid, Rules.Admit, BigEndian, FromBigEndian, Decode, Encode;
    AcceptedShape(rules, codec, message, maxFrameBytes);
    var f := Decode(rules, codec, message, maxFrameBytes).value;
    if |codec.dumps(AsPayload(f.metadata))| > MAX_METADATA_BYTES {
      EncodeRefuses(codec, AsPayload(f.metadata), f.image);
    } else {
      WireRoundTrip(rules, codec, f.metadata, f.image, maxFrameBytes);
    }
  }

  lemma EncodeRefuses(codec: TextCodec, v: Json, image: seq<byte>)
    requires |codec.dumps(v)| > MAX_METADATA_BYTES
    ensures Encode(codec, v, image) == Err(FrameTooLarge)
  {
  }

  /** "Too large", which closes the stream with its own code, means exactly one of two limits was passed. */
  lemma TooLargeMeans(rules: Rules, codec: TextCodec, message: seq<byte>, maxFrameBytes: nat)
    ensures Decode(rules, codec, message, maxFrameBytes) == Err(FrameTooLarge) <==>
      && |message| >= PREFIX_SIZE && message[..4] == MAGIC
      && var length := FromBigEndian(message[4..8]);
        length > MAX_METADATA_BYTES
        || (PREFIX_SIZE + length <= |message| && |message| - PREFIX_SIZE - length > maxFrameBytes)
  {
    hide FromPayload, FromBigEndian;
  }
}
