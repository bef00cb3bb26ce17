/** One named data point of a device model (variable.go): its declared type
    and options, the finishing steps of its JSON decoding, the ingestion of
    raw values into its cache, and the read-back with change detection. */
module Variables {
  import opened Wrappers
  import opened GoInts
  import opened DataTypes
  import opened TimeSeries

  /** time.Minute in nanoseconds: the default cache duration. */
  const Minute: int := 60_000_000_000

  /** A compiled expression program; its contents belong to the expression
      engine. */
  datatype Program = Program(code: seq<int>)

  /** A duration field of the JSON document: empty, parsed by
      time.ParseDuration to nanoseconds, or refused by it. */
  datatype DurationText = Absent | Parsed(d: int) | Malformed

  datatype DecodeError =
    | TypeError(cause: DataTypeError)   // unknown data_type on a variable with a connection
    | NotATag(key: string)              // as_tag on a type other than String
    | NotAnEvent(key: string)           // as_event on a type other than Bool
    | InvalidPublishCycle
    | InvalidCacheDuration

  datatype WriteError =
    | UnsupportedValue                  // ConvertToFloat64 refused the value
    | ConversionFailed(key: string, target: DataType, cause: ConvError)
    | BytesFailed(key: string)          // ConvertToBytes refused the converted value
    | CacheTypeMismatch(key: string, expected: Kind)
    | UnsupportedDataType

  predicate IsNumeric(dt: DataType) {
    dt in {Float32, Float64, Int8, UInt8, Int16, UInt16, Int32, UInt32, Int64, UInt64}
  }

  predicate IsByteArray(dt: DataType) {
    dt in {Byte, Word, DWord}
  }

  /** The element type of the cache a data type is stored in: every
      numeric type shares the float64 cache, the three byte-array types the
      []byte cache. */
  function CacheKindFor(dt: DataType): (k: Kind)
    ensures k == FloatKind <==> IsNumeric(dt)
    ensures k == BoolKind <==> dt == Bool
    ensures k == StringKind <==> dt == String
    ensures k == BytesKind <==> IsByteArray(dt)
  {
    match dt
    case Bool => BoolKind
    case String => StringKind
    case Byte | Word | DWord => BytesKind
    case _ => FloatKind
  }

  /** Scale first, then offset, each only when configured. */
  function Calibrate(x: real, scale: Option<real>, offset: Option<real>): real {
    var scaled := if scale.Some? then x * scale.value else x;
    if offset.Some? then scaled + offset.value else scaled
  }

  /** The raw reading behind a calibrated value. */
  function Uncalibrate(y: real, scale: Option<real>, offset: Option<real>): real
    requires scale.Some? ==> scale.value != 0.0
  {
    var unshifted := if offset.Some? then y - offset.value else y;
    if scale.Some? then unshifted / scale.value else unshifted
  }

  /** Calibration loses nothing when the scale is not zero. */
  lemma CalibrateRoundTrip(x: real, scale: Option<real>, offset: Option<real>)
    requires scale.Some? ==> scale.value != 0.0
    ensures Uncalibrate(Calibrate(x, scale, offset), scale, offset) == x
  {
    if scale.Some? {
      assert x * scale.value / scale.value == x;
    }
  }

  /** The value WriteValue stores for `value`, or the error it reports
      before looking at the cache. A data type left empty by a failed parse
      is `None`. */
  function Ingest(dt: Option<DataType>, key: string, value: Any, scale: Option<real>, offset: Option<real>,
                  format: Any -> seq<u8>): (r: Result<TimeSeries.Value, WriteError>)
    ensures dt.None? ==> r == Err(UnsupportedDataType)
    ensures r.Ok? ==> dt.Some? && KindOf(r.value) == CacheKindFor(dt.value)
    ensures dt.Some? && IsNumeric(dt.value) ==>
      (r.Ok? <==> ConvertToFloat64(value).Ok?) &&
      (r.Ok? ==> r.value == FloatVal(Calibrate(ConvertToFloat64(value).value, scale, offset)))
    ensures dt == Some(String) ==>
      r.Ok? && (value.Str? ==> r.value == StringVal(value.s)) &&
      (value.ByteSlice? ==> r.value == StringVal(value.bs))
    ensures dt == Some(Bool) ==>
      var c := ConvertFromAny(Bool, value, format);
      (r.Ok? <==> c.Ok?) && (r.Ok? ==> c.value.Boolean? && r.value == BoolVal(c.value.b))
    ensures dt.Some? && IsByteArray(dt.value) ==>
      var c := ConvertFromAny(dt.value, value, format);
      (r.Ok? <==> c.Ok?) &&
      (r.Ok? ==> ConvertToBytes(c.value).Ok? && r.value == BytesVal(ConvertToBytes(c.value).value))
    ensures dt.Some? && IsByteArray(dt.value) && r.Ok? ==> |r.value.bs| == PackWidth(dt.value)
    ensures dt.Some? && !IsNumeric(dt.value) && ConvertFromAny(dt.value, value, format).Err? ==>
      r == Err(ConversionFailed(key, dt.value, ConvertFromAny(dt.value, value, format).error))
    ensures r.Err? ==> !r.error.BytesFailed?
  {
    match dt
    case None => Err(UnsupportedDataType)
    case Some(t) =>
      if IsNumeric(t) then
        match ConvertToFloat64(value)
        case Ok(x) => Ok(FloatVal(Calibrate(x, scale, offset)))
        case Err(_) => Err(UnsupportedValue)
      else
        match ConvertFromAny(t, value, format)
        case Err(e) => Err(ConversionFailed(key, t, e))
        case Ok(converted) =>
          match t
          case Bool => (match converted case Boolean(b) => Ok(BoolVal(b)) case _ => assert false; Err(UnsupportedDataType))
          case String => (match converted case Str(s) => Ok(StringVal(s)) case _ => assert false; Err(UnsupportedDataType))
          case _ =>
            match ConvertToBytes(converted)
            case Ok(bs) => Ok(BytesVal(bs))
            case Err(_) => Err(BytesFailed(key))
  }

  /** What Read returns for a variable whose cache matches its type: the
      newest value, whether it changed, and its timestamp. */
  datatype Reading = Reading(value: TimeSeries.Value, changed: bool, timestamp: Option<int>)

  class Variable {
    const key: string
    const connection: string
    const address: string
    const script: string
    const diffThreshold: Option<real>
    const pctThreshold: Option<real>
    const scale: Option<real>
    const offset: Option<real>
    const writable: bool
    const asTag: bool
    const asEvent: bool
    const dataTypeStr: string
    /** None is Go's empty DataType, which a failed parse leaves. */
    var dataType: Option<DataType>
    var bytes: int
    var publishCycle: Option<int>
    var cacheDuration: Option<int>
    var cache: Cache?
    var program: Option<Program>
    /** The last point pushed upstream. */
    var latestPush: Option<Point>

    /** The fields as json.Unmarshal decodes them, before the finishing
        steps. */
    constructor (key: string, connection: string, address: string, script: string,
                 diffThreshold: Option<real>, pctThreshold: Option<real>,
                 scale: Option<real>, offset: Option<real>,
                 writable: bool, asTag: bool, asEvent: bool, dataTypeStr: string)
      ensures this.key == key && this.connection == connection && this.address == address
      ensures this.script == script && this.diffThreshold == diffThreshold
      ensures this.pctThreshold == pctThreshold && this.scale == scale && this.offset == offset
      ensures this.writable == writable && this.asTag == asTag && this.asEvent == asEvent
      ensures this.dataTypeStr == dataTypeStr
      ensures dataType.None? && bytes == 0 && publishCycle.None? && cacheDuration.None?
      ensures cache == null && program.None? && latestPush.None?
    {
      this.key := key;
      this.connection := connection;
      this.address := address;
      this.script := script;
      this.diffThreshold := diffThreshold;
      this.pctThreshold := pctThreshold;
      this.scale := scale;
      this.offset := offset;
      this.writable := writable;
      this.asTag := asTag;
      this.asEvent := asEvent;
      this.dataTypeStr := dataTypeStr;
      dataType := None;
      bytes := 0;
      publishCycle := None;
      cacheDuration := None;
      cache := null;
      program := None;
      latestPush := None;
    }

    /** createCache: an empty cache of the element type the data type is
        stored as, expiring after the cache duration (a minute when unset);
        none for an empty data type. */
    method CreateCache() returns (c: Cache?)
      ensures c == null <==> dataType.None?
      ensures c != null ==>
        fresh(c) && c.Valid() && c.points == [] &&
        c.kind == CacheKindFor(dataType.value) && c.expire == cacheDuration.GetOr(Minute)
    {
      if dataType.None? {
        return null;
      }
      c := new Cache(CacheKindFor(dataType.value), cacheDuration.GetOr(Minute));
    }

    /** The finishing steps of UnmarshalJSON, after the fields are decoded:
        resolve the data type, check the tag and event flags, parse the two
        durations and create the cache. Fields set before an error keep
        their new values. */
    method FinishDecode(publishCycleText: DurationText, cacheDurationText: DurationText)
      returns (err: Option<DecodeError>)
      modifies this
      ensures var parsed := ParseDataType(dataTypeStr);
        dataType == (if parsed.Ok? then Some(parsed.value.0) else None) &&
        bytes == (if parsed.Ok? then parsed.value.1 else 0)
      ensures err == DecodeCheck(key, connection, asTag, asEvent, ParseDataType(dataTypeStr),
                                 publishCycleText, cacheDurationText)
      ensures publishCycle ==
        if publishCycleText.Parsed? && EarlyCheck(key, connection, asTag, asEvent, ParseDataType(dataTypeStr)).None?
        then Some(publishCycleText.d) else old(publishCycle)
      ensures err.None? ==>
        cacheDuration == Some(if cacheDurationText.Parsed? then cacheDurationText.d else Minute) &&
        (cache == null <==> dataType.None?) &&
        (cache != null ==>
          fresh(cache) && cache.Valid() && cache.points == [] &&
          cache.kind == CacheKindFor(dataType.value) && cache.expire == cacheDuration.value)
      ensures err.Some? ==> cacheDuration == old(cacheDuration) && cache == old(cache)
      ensures program == old(program) && latestPush == old(latestPush)
    {
      var parsed := ParseDataType(dataTypeStr);
      if parsed.Ok? {
        dataType, bytes := Some(parsed.value.0), parsed.value.1;
      } else {
        dataType, bytes := None, 0;
      }
      err := EarlyCheck(key, connection, asTag, asEvent, parsed);
      if err.Some? {
        return;
      }
      match publishCycleText {
        case Parsed(d) => publishCycle := Some(d);
        case Malformed => return Some(InvalidPublishCycle);
        case Absent =>
      }
      match cacheDurationText {
        case Parsed(d) => cacheDuration := Some(d);
        case Malformed => return Some(InvalidCacheDuration);
        case Absent => cacheDuration := Some(Minute);
      }
      cache := CreateCache();
    }

    /** WriteValue: converts a raw value to the cache's element type and
        records it at `t` (at `now` when nil). The variable's own fields
        never change; the cache changes only on success. */
    method WriteValue(value: Any, t: Option<int>, now: int, format: Any -> seq<u8>)
      returns (err: Option<WriteError>)
      requires cache != null ==> cache.Valid()
      modifies cache
      ensures cache != null ==> cache.Valid()
      ensures var ingested := Ingest(dataType, key, value, scale, offset, format);
        match ingested
        case Err(e) => err == Some(e) && (cache != null ==> cache.points == old(cache.points))
        case Ok(x) =>
          if cache == null || cache.kind != KindOf(x) then
            err == Some(CacheTypeMismatch(key, KindOf(x))) && (cache != null ==> cache.points == old(cache.points))
          else
            err.None? && cache.points == Evict(Upsert(old(cache.points), x, t.GetOr(now)), now, cache.expire)
    {
      var ingested := Ingest(dataType, key, value, scale, offset, format);
      match ingested {
        case Err(e) =>
          return Some(e);
        case Ok(x) =>
          if cache == null || cache.kind != KindOf(x) {
            return Some(CacheTypeMismatch(key, KindOf(x)));
          }
          cache.AddPoint(x, t, now);
          return None;
      }
    }

    /** Read: the newest value, whether it changed, and its timestamp;
        None (Go's nil, false, nil) for an empty data type or a cache of
        another element type. A numeric variable reports a change when the
        newest step exceeds its percentage threshold, or else its difference
        threshold; an error counts as no change. */
    function Read(): (r: Option<Reading>)
      reads this, cache
      ensures r.Some? <==> dataType.Some? && cache != null && cache.kind == CacheKindFor(dataType.value)
      ensures r.Some? ==> r.value.value == cache.Value() && r.value.timestamp == cache.Timestamp()
      ensures r.Some? && IsNumeric(dataType.value) ==>
        r.value.changed ==
          if pctThreshold.Some? then cache.PctChangeExceeds(pctThreshold.value) == Ok(true)
          else diffThreshold.Some? && cache.DiffExceeds(diffThreshold.value) == Ok(true)
      ensures r.Some? && !IsNumeric(dataType.value) ==> r.value.changed == cache.Changed()
    {
      if dataType.None? || cache == null || cache.kind != CacheKindFor(dataType.value) then None
      else if IsNumeric(dataType.value) then
        var changed := false;
        var changed := if diffThreshold.Some? then cache.DiffExceeds(diffThreshold.value).GetOr(false) else changed;
        var changed := if pctThreshold.Some? then cache.PctChangeExceeds(pctThreshold.value).GetOr(false) else changed;
        Some(Reading(cache.Value(), changed, cache.Timestamp()))
      else
        Some(Reading(cache.Value(), cache.Changed(), cache.Timestamp()))
    }
  }

  /** The errors decoding reports before it parses the durations: an
      unresolvable type on a variable with a connection (a computed
      variable may leave its type empty), then the tag flag, then the
      event flag. */
  function EarlyCheck(key: string, connection: string, asTag: bool, asEvent: bool,
                      parsed: Result<(DataType, int), DataTypeError>): (err: Option<DecodeError>)
    ensures err.None? <==>
      (connection != "" ==> parsed.Ok?) &&
      (asTag ==> parsed.Ok? && parsed.value.0 == String) &&
      (asEvent ==> parsed.Ok? && parsed.value.0 == Bool)
  {
    var dt := if parsed.Ok? then Some(parsed.value.0) else None;
    if connection != "" && parsed.Err? then Some(TypeError(parsed.error))
    else if asTag && dt != Some(String) then Some(NotATag(key))
    else if asEvent && dt != Some(Bool) then Some(NotAnEvent(key))
    else None
  }

  /** The error decoding reports, checks in order. */
  function DecodeCheck(key: string, connection: string, asTag: bool, asEvent: bool,
                       parsed: Result<(DataType, int), DataTypeError>,
                       publishCycleText: DurationText, cacheDurationText: DurationText): (err: Option<DecodeError>)
    ensures err.None? <==>
      EarlyCheck(key, connection, asTag, asEvent, parsed).None? &&
      !publishCycleText.Malformed? && !cacheDurationText.Malformed?
  {
    var early := EarlyCheck(key, connection, asTag, asEvent, parsed);
    if early.Some? then early
    else if publishCycleText.Malformed? then Some(InvalidPublishCycle)
    else if cacheDurationText.Malformed? then Some(InvalidCacheDuration)
    else None
  }

  /** A variable flagged both as a tag and as an event can never decode:
      no type is both String and Bool. */
  lemma TagAndEventExclusive(key: string, connection: string, parsed: Result<(DataType, int), DataTypeError>,
                             p: DurationText, c: DurationText)
    ensures DecodeCheck(key, connection, true, true, parsed, p, c).Some?
  {
  }

  /** A numeric write stores the calibrated float64 of the value, from which
      the raw reading can be recovered. */
  lemma NumericWriteRecoverable(dt: DataType, key: string, value: Any, scale: Option<real>, offset: Option<real>,
                                format: Any -> seq<u8>)
    requires IsNumeric(dt) && (value.Int? || value.Uint? || value.Float?)
    requires scale.Some? ==> scale.value != 0.0
    ensures var r := Ingest(Some(dt), key, value, scale, offset, format);
      r.Ok? && r.value.FloatVal? && Uncalibrate(r.value.f, scale, offset) == ConvertToFloat64(value).value
  {
    CalibrateRoundTrip(ConvertToFloat64(value).value, scale, offset);
  }

  /** A byte-array write of a fitting integer stores its little-endian
      bytes, which decode back to it. */
  lemma ByteArrayWriteRoundTrip(dt: DataType, key: string, value: Any, scale: Option<real>, offset: Option<real>,
                                format: Any -> seq<u8>)
    requires IsByteArray(dt) && WellFormed(value) && IsInteger(value)
    requires 0 <= IntegerValue(value) < Pow256(PackWidth(dt))
    ensures var r := Ingest(Some(dt), key, value, scale, offset, format);
      r.Ok? && FromLittleEndian(r.value.bs) == IntegerValue(value)
  {
    PackRoundTrip(dt, value, format);
  }
}
