/** Type resolution and the value codec (data_type.go): the fifteen canonical
    data types, the resolution of industrial type names and aliases to a type
    and a byte width, and the conversion of a dynamically typed Go value to the
    Go type a data type is stored as. */
module DataTypes {
  import opened Wrappers
  import opened GoInts

  /** The canonical data types (data_type.go:14-30). */
  datatype DataType =
    | Bool | Byte | Word | DWord
    | Int8 | UInt8 | Int16 | UInt16 | Int32 | UInt32 | Int64 | UInt64
    | Float32 | Float64 | String

  /** The text of a data type, which is also its Go value. */
  function Name(dt: DataType): string {
    match dt
    case Bool => "Bool"
    case Byte => "Byte"
    case Word => "Word"
    case DWord => "DWord"
    case Int8 => "Int8"
    case UInt8 => "UInt8"
    case Int16 => "Int16"
    case UInt16 => "UInt16"
    case Int32 => "Int32"
    case UInt32 => "UInt32"
    case Int64 => "Int64"
    case UInt64 => "UInt64"
    case Float32 => "Float32"
    case Float64 => "Float64"
    case String => "String"
  }

  /** The names of all data types, in declaration order. */
  function Values(): (names: seq<string>)
    ensures |names| == 15
    ensures forall dt :: Name(dt) in names
  {
    ["Bool", "Byte", "Word", "DWord", "Int8", "UInt8", "Int16", "UInt16",
     "Int32", "UInt32", "Int64", "UInt64", "Float32", "Float64", "String"]
  }

  datatype DataTypeError =
    | InvalidEnum(name: string)       // refused by the validator
    | UnknownDataType(name: string)   // no type, alias or sized string matches

  /** Accepts exactly the fifteen type names. */
  function DataTypeValidator(name: string): (err: Option<DataTypeError>)
    ensures err.None? <==> name in Values()
    ensures err.Some? ==> err == Some(InvalidEnum(name))
  {
    match name
    case "Bool" | "Byte" | "Word" | "DWord" | "Int8" | "UInt8" | "Int16" | "UInt16"
       | "Int32" | "UInt32" | "Int64" | "UInt64" | "Float32" | "Float64" | "String" => None
    case _ => Some(InvalidEnum(name))
  }

  /** Byte width of each data type when named directly. */
  function FixedWidth(dt: DataType): nat {
    match dt
    case Bool | Byte | Int8 | UInt8 => 1
    case Word | Int16 | UInt16 => 2
    case DWord | Int32 | UInt32 | Float32 => 4
    case Int64 | UInt64 | Float64 => 8
    case String => 0
  }

  predicate IsDigit(c: char) {
    '0' <= c <= '9'
  }

  predicate AllDigits(s: string) {
    forall i :: 0 <= i < |s| ==> IsDigit(s[i])
  }

  /** The number a string of decimal digits denotes. */
  function DecimalValue(ds: string): (n: nat)
    requires AllDigits(ds)
    decreases |ds|
  {
    if ds == [] then 0
    else DecimalValue(ds[..|ds| - 1]) * 10 + (ds[|ds| - 1] as int - '0' as int)
  }

  /** The decimal digits of n, without leading zeros. */
  function DecimalString(n: nat): (ds: string)
    ensures |ds| > 0 && AllDigits(ds)
  {
    var d := [(n % 10 + '0' as int) as char];
    if n < 10 then d else DecimalString(n / 10) + d
  }

  lemma {:induction false} DecimalRoundTrip(n: nat)
    ensures DecimalValue(DecimalString(n)) == n
  {
    var ds := DecimalString(n);
    if n >= 10 {
      DecimalRoundTrip(n / 10);
      assert ds[..|ds| - 1] == DecimalString(n / 10);
    }
  }

  /** A match of the pattern `^(W)?String\[(\d+)\]$`: whether the W is
      present, and the digits. */
  function MatchSizedString(name: string): (m: Option<(bool, string)>)
    ensures m.Some? ==> |m.value.1| > 0 && AllDigits(m.value.1)
  {
    if |name| >= 10 && name[..8] == "WString[" && name[|name| - 1] == ']'
       && AllDigits(name[8..|name| - 1])
    then Some((true, name[8..|name| - 1]))
    else if |name| >= 9 && name[..7] == "String[" && name[|name| - 1] == ']'
       && AllDigits(name[7..|name| - 1])
    then Some((false, name[7..|name| - 1]))
    else None
  }

  /** strconv.Atoi on a string of digits: a value beyond the int64 range is
      reported as a range error together with the largest int64, and the
      caller ignores the error. */
  function Atoi(ds: string): (n: int)
    requires AllDigits(ds)
    ensures 0 <= n <= MaxInt64
  {
    var v := DecimalValue(ds);
    if v > MaxInt64 then MaxInt64 else v
  }

  const TwoTo64: int := 0x1_0000_0000_0000_0000

  /** The fixed table of type names and vendor aliases, each with its
      resolution. */
  function FixedTable(name: string): Option<(DataType, int)> {
    match name
    case "Bool" => Some((Bool, 1))
    case "Byte" => Some((Byte, 1))
    case "Word" => Some((Word, 2))
    case "DWord" => Some((DWord, 4))
    case "Int8" => Some((Int8, 1))
    case "UInt8" => Some((UInt8, 1))
    case "Int16" => Some((Int16, 2))
    case "UInt16" => Some((UInt16, 2))
    case "Int32" => Some((Int32, 4))
    case "UInt32" => Some((UInt32, 4))
    case "Int64" => Some((Int64, 8))
    case "UInt64" => Some((UInt64, 8))
    case "Float32" => Some((Float32, 4))
    case "Float64" => Some((Float64, 8))
    case "String" => Some((String, 0))
    case "S5Time" => Some((Int16, 2))
    case "Time" => Some((Int32, 4))
    case "LTime" => Some((Int64, 8))
    case "DTL" => Some((String, 12))
    case "Date" => Some((String, 2))
    case "Date_And_Time" => Some((String, 8))
    case "LDT" => Some((String, 8))
    case "LTime_Of_Day" => Some((String, 8))
    case "Time_Of_Day" => Some((String, 4))
    case _ => None
  }

  /** Resolves a type name or vendor alias to a data type and byte width;
      failing those, a sized string `String[n]` (n + 2 bytes) or `WString[n]`
      (2n + 4 bytes, computed in 64-bit int arithmetic). */
  function ParseDataType(name: string): (r: Result<(DataType, int), DataTypeError>)
    ensures r.Err? <==> FixedTable(name).None? && MatchSizedString(name).None?
    ensures r.Err? ==> r.error == UnknownDataType(name)
    ensures r.Ok? && FixedTable(name).None? ==> r.value.0 == String
  {
    match FixedTable(name)
    case Some(resolved) => Ok(resolved)
    case None =>
      match MatchSizedString(name)
      case Some((wide, digits)) =>
        var n := Atoi(digits);
        if wide then Ok((String, Wrap(TwoTo64, n * 2 + 4))) else Ok((String, Wrap(TwoTo64, n + 2)))
      case None => Err(UnknownDataType(name))
  }

  predicate IsAlias(name: string) {
    name in {"S5Time", "Time", "LTime", "DTL", "Date", "Date_And_Time", "LDT",
             "LTime_Of_Day", "Time_Of_Day"}
  }

  /** Every name the validator accepts resolves to its own type, with the
      width of the fixed table. */
  lemma ParseKnownName(dt: DataType)
    ensures ParseDataType(Name(dt)) == Ok((dt, FixedWidth(dt)))
    ensures DataTypeValidator(Name(dt)).None?
  {
  }

  /** The vendor duration aliases resolve to signed integers. */
  lemma ParseTimeAliases()
    ensures ParseDataType("S5Time") == Ok((Int16, 2))
    ensures ParseDataType("Time") == Ok((Int32, 4))
    ensures ParseDataType("LTime") == Ok((Int64, 8))
  {
  }

  /** The vendor date and time-of-day aliases resolve to strings of fixed
      width. */
  lemma ParseDateAliases()
    ensures ParseDataType("DTL") == Ok((String, 12))
    ensures ParseDataType("Date") == Ok((String, 2))
    ensures ParseDataType("Date_And_Time") == Ok((String, 8))
    ensures ParseDataType("LDT") == Ok((String, 8))
    ensures ParseDataType("LTime_Of_Day") == Ok((String, 8))
    ensures ParseDataType("Time_Of_Day") == Ok((String, 4))
  {
  }

  /** `String[n]` is a string of n + 2 bytes. */
  lemma ParseSizedString(n: nat)
    requires n + 2 <= MaxInt64
    ensures ParseDataType("String[" + DecimalString(n) + "]") == Ok((String, n + 2))
  {
    var ds := DecimalString(n);
    DecimalRoundTrip(n);
    MatchString(ds);
    NotInFixedTable("String[" + ds + "]");
    assert Atoi(ds) == n;
  }

  lemma MatchString(ds: string)
    requires |ds| > 0 && AllDigits(ds)
    ensures MatchSizedString("String[" + ds + "]") == Some((false, ds))
  {
    var name := "String[" + ds + "]";
    assert name[..7] == "String[";
    assert name[7..|name| - 1] == ds;
    assert name[0] != 'W';
  }

  /** `WString[n]` is a string of 2n + 4 bytes. */
  lemma ParseSizedWString(n: nat)
    requires 2 * n + 4 <= MaxInt64
    ensures ParseDataType("WString[" + DecimalString(n) + "]") == Ok((String, 2 * n + 4))
  {
    var ds := DecimalString(n);
    var name := "WString[" + ds + "]";
    DecimalRoundTrip(n);
    assert name[..8] == "WString[";
    assert name[8..|name| - 1] == ds;
    assert MatchSizedString(name) == Some((true, ds));
    NotInFixedTable(name);
  }

  /** No sized-string name is in the fixed table: every entry at least nine
      characters long starts with a letter other than S and W. */
  lemma NotInFixedTable(name: string)
    requires |name| >= 9 && (name[0] == 'S' || name[0] == 'W')
    ensures FixedTable(name).None?
  {
    assert name != "Date_And_Time" && name != "LTime_Of_Day" && name != "Time_Of_Day" by {
      assert "Date_And_Time"[0] == 'D' && "LTime_Of_Day"[0] == 'L' && "Time_Of_Day"[0] == 'T';
    }
  }

  /** The fixed table holds exactly the type names and the aliases. */
  lemma FixedTableDomain(name: string)
    ensures FixedTable(name).Some? <==> name in Values() || IsAlias(name)
  {
  }

  /** A name fails to resolve exactly when it is neither a type name, nor an
      alias, nor a sized string; the error then carries the name. */
  lemma ParseUnknown(name: string)
    ensures ParseDataType(name).Err? <==>
      name !in Values() && !IsAlias(name) && MatchSizedString(name).None?
    ensures ParseDataType(name).Err? ==> ParseDataType(name).error == UnknownDataType(name)
  {
    FixedTableDomain(name);
  }

  // ----- dynamically typed Go values -----

  datatype IntKind = GoInt | GoInt8 | GoInt16 | GoInt32 | GoInt64
  datatype UintKind = GoUint | GoUint8 | GoUint16 | GoUint32 | GoUint64
  datatype FloatKind = GoFloat32 | GoFloat64

  /** A Go value held in an `any`, by its dynamic type. A Go string is a
      sequence of bytes; `ByteArray` is a fixed-size `[n]byte` with n = |arr|;
      `Other` is every other dynamic type, nil included. `int` and `uint` are
      64 bits wide. */
  datatype Any =
    | Int(ik: IntKind, i: int)
    | Uint(uk: UintKind, n: int)
    | Float(fk: FloatKind, r: real)
    | Boolean(b: bool)
    | Str(s: seq<u8>)
    | ByteSlice(bs: seq<u8>)
    | ByteArray(arr: seq<u8>)
    | Other

  function IntMin(k: IntKind): int {
    match k
    case GoInt8 => -0x80
    case GoInt16 => -0x8000
    case GoInt32 => -0x8000_0000
    case GoInt | GoInt64 => MinInt64
  }

  function IntMax(k: IntKind): int {
    match k
    case GoInt8 => 0x7F
    case GoInt16 => 0x7FFF
    case GoInt32 => 0x7FFF_FFFF
    case GoInt | GoInt64 => MaxInt64
  }

  function UintMax(k: UintKind): int {
    match k
    case GoUint8 => 0xFF
    case GoUint16 => 0xFFFF
    case GoUint32 => 0xFFFF_FFFF
    case GoUint | GoUint64 => 0xFFFF_FFFF_FFFF_FFFF
  }

  /** The value is one its dynamic type can hold. */
  predicate WellFormed(v: Any) {
    match v
    case Int(k, i) => IntMin(k) <= i <= IntMax(k)
    case Uint(k, n) => 0 <= n <= UintMax(k)
    case _ => true
  }

  predicate IsInteger(v: Any) {
    v.Int? || v.Uint?
  }

  /** The mathematical value of an integer. */
  function IntegerValue(v: Any): int
    requires IsInteger(v)
  {
    if v.Int? then v.i else v.n
  }

  datatype ConvError =
    | CannotConvert(target: DataType)   // the dynamic type is not accepted
    | OutOfRange(target: DataType)      // the value does not fit
    | TooLong(target: DataType)         // a byte slice or string longer than the array

  /** The "unsupported type" error of the canonicalisers. */
  datatype Unsupported = UnsupportedType

  /** Canonicalises a numeric value to float64. */
  function ConvertToFloat64(v: Any): (r: Result<real, Unsupported>)
    ensures r.Ok? <==> v.Int? || v.Uint? || v.Float?
    ensures IsInteger(v) ==> r == Ok(IntegerValue(v) as real)
    ensures v.Float? ==> r == Ok(v.r)
  {
    match v
    case Float(_, x) => Ok(x)
    case Int(_, i) => Ok(i as real)
    case Uint(_, n) => Ok(n as real)
    case _ => Err(UnsupportedType)
  }

  /** Canonicalises a byte-like value to a byte slice. */
  function ConvertToBytes(v: Any): (r: Result<seq<u8>, Unsupported>)
    ensures r.Ok? <==> v.ByteSlice? || v.Str? || (v.ByteArray? && |v.arr| in {1, 2, 4})
  {
    match v
    case ByteSlice(bs) => Ok(bs)
    case Str(s) => Ok(s)
    case ByteArray(arr) => if |arr| in {1, 2, 4} then Ok(arr) else Err(UnsupportedType)
    case _ => Err(UnsupportedType)
  }

  /** The Go type a conversion to `dt` produces: bool, intN, uintN, floatN,
      string, or [w]byte for Byte, Word and DWord. */
  predicate OfType(v: Any, dt: DataType) {
    match dt
    case Bool => v.Boolean?
    case Int8 => v.Int? && v.ik == GoInt8
    case Int16 => v.Int? && v.ik == GoInt16
    case Int32 => v.Int? && v.ik == GoInt32
    case Int64 => v.Int? && v.ik == GoInt64
    case UInt8 => v.Uint? && v.uk == GoUint8
    case UInt16 => v.Uint? && v.uk == GoUint16
    case UInt32 => v.Uint? && v.uk == GoUint32
    case UInt64 => v.Uint? && v.uk == GoUint64
    case Float32 => v.Float? && v.fk == GoFloat32
    case Float64 => v.Float? && v.fk == GoFloat64
    case String => v.Str?
    case Byte => v.ByteArray? && |v.arr| == 1
    case Word => v.ByteArray? && |v.arr| == 2
    case DWord => v.ByteArray? && |v.arr| == 4
  }

  /** Converts a dynamically typed value to the Go type `dt` is stored as.
      `format` is fmt.Sprintf("%v"), used for String from any type that is
      neither a string nor a byte slice. */
  function ConvertFromAny(dt: DataType, v: Any, format: Any -> seq<u8>): (r: Result<Any, ConvError>)
    ensures WellFormed(v) && r.Ok? ==> WellFormed(r.value) && OfType(r.value, dt)
    ensures r.Err? ==> r.error.target == dt
  {
    match dt
    case Bool => ToBool(v)
    case Int8 => ToInt8(v)
    // math.MaxInt32 compared with a float32 rounds to 2^31; MaxInt64 to 2^63
    case Int16 => ToSigned(Int16, GoInt16, 0x1_0000, -32768.0, 32767.0, 32767.0, v)
    case Int32 => ToSigned(Int32, GoInt32, 0x1_0000_0000, -2147483648.0, 2147483648.0, 2147483647.0, v)
    case Int64 => ToSigned(Int64, GoInt64, TwoTo64, -9223372036854775808.0,
                           9223372036854775808.0, 9223372036854775808.0, v)
    case UInt8 => ToUnsigned(UInt8, GoUint8, 0xFF, 255.0, v)
    case UInt16 => ToUnsigned(UInt16, GoUint16, 0xFFFF, 65535.0, v)
    case UInt32 => ToUnsigned(UInt32, GoUint32, 0xFFFF_FFFF, 4294967295.0, v)
    // math.MaxUint64 compared as a float64 rounds to 2^64
    case UInt64 => ToUnsigned(UInt64, GoUint64, 0xFFFF_FFFF_FFFF_FFFF, 18446744073709551616.0, v)
    case Float32 => ToFloat32(v)
    case Float64 => ToFloat64(v)
    case String => Ok(match v case Str(_) => v case ByteSlice(bs) => Str(bs) case _ => Str(format(v)))
    case Byte => Pack(Byte, 1, v)
    case Word => Pack(Word, 2, v)
    case DWord => Pack(DWord, 4, v)
  }

  /** `v != 0` on an `any` compares with the untyped constant 0, whose
      default type is int: only an `int` zero is equal to it. */
  function ToBool(v: Any): (r: Result<Any, ConvError>)
    ensures r.Err? ==> r.error.target == Bool
  {
    match v
    case Boolean(_) => Ok(v)
    case Int(k, i) => Ok(Boolean(!(k == GoInt && i == 0)))
    case Uint(_, _) | Float(_, _) => Ok(Boolean(true))
    case _ => Err(CannotConvert(Bool))
  }

  /** Int8 alone range-checks its unsigned sources; signed sources wrap. */
  function ToInt8(v: Any): (r: Result<Any, ConvError>)
    ensures r.Err? ==> r.error.target == Int8
  {
    match v
    case Uint(_, n) => if n > 0x7F then Err(OutOfRange(Int8)) else Ok(Int(GoInt8, Wrap(0x100, n)))
    case Int(k, i) => if k == GoInt8 then Ok(v) else Ok(Int(GoInt8, Wrap(0x100, i)))
    case Float(_, x) =>
      if x < -128.0 || x > 127.0 then Err(OutOfRange(Int8)) else Ok(Int(GoInt8, Wrap(0x100, Trunc(x))))
    case _ => Err(CannotConvert(Int8))
  }

  /** Int16, Int32 and Int64: every integer source wraps; float sources are
      range-checked against [lo, hi32] (float32) or [lo, hi64] (float64). */
  function ToSigned(dt: DataType, k: IntKind, m: int, lo: real, hi32: real, hi64: real, v: Any)
    : (r: Result<Any, ConvError>)
    requires m >= 2 && m % 2 == 0
    ensures r.Err? ==> r.error.target == dt
  {
    match v
    case Uint(_, n) => Ok(Int(k, Wrap(m, n)))
    case Int(ik, i) => if ik == k then Ok(v) else Ok(Int(k, Wrap(m, i)))
    case Float(fk, x) =>
      var hi := if fk == GoFloat32 then hi32 else hi64;
      if x < lo || x > hi then Err(OutOfRange(dt)) else Ok(Int(k, Wrap(m, Trunc(x))))
    case _ => Err(CannotConvert(dt))
  }

  /** UInt8 .. UInt64: negative sources fail; a source type that can exceed
      `max` is checked against it (the Go code omits the check exactly where
      the source type cannot exceed it); floats are checked against
      [0, hi]. */
  function ToUnsigned(dt: DataType, k: UintKind, max: int, hi: real, v: Any)
    : (r: Result<Any, ConvError>)
    requires max >= 0
    ensures r.Err? ==> r.error.target == dt
  {
    match v
    case Int(ik, i) =>
      if i < 0 || (IntMax(ik) > max && i > max) then Err(OutOfRange(dt))
      else Ok(Uint(k, WrapUnsigned(max + 1, i)))
    case Uint(uk, n) =>
      if uk == k then Ok(v)
      else if UintMax(uk) > max && n > max then Err(OutOfRange(dt))
      else Ok(Uint(k, WrapUnsigned(max + 1, n)))
    case Float(_, x) =>
      if x < 0.0 || x > hi then Err(OutOfRange(dt)) else Ok(Uint(k, WrapUnsigned(max + 1, Trunc(x))))
    case _ => Err(CannotConvert(dt))
  }

  const MaxFloat32: real := 340282346638528859811704183484516925440.0

  /** Float32: float64, int, int64, uint and uint64 sources are checked
      against math.MaxFloat32 (rounding to float32 is not modelled). */
  function ToFloat32(v: Any): (r: Result<Any, ConvError>)
    ensures r.Err? ==> r.error.target == Float32
  {
    match v
    case Float(GoFloat32, _) => Ok(v)
    case Float(GoFloat64, x) =>
      if x > MaxFloat32 || x < -MaxFloat32 then Err(OutOfRange(Float32)) else Ok(Float(GoFloat32, x))
    case Int(k, i) =>
      if (k == GoInt || k == GoInt64) && (i as real > MaxFloat32 || (i as real) < -MaxFloat32)
      then Err(OutOfRange(Float32)) else Ok(Float(GoFloat32, i as real))
    case Uint(k, n) =>
      if (k == GoUint || k == GoUint64) && n as real > MaxFloat32
      then Err(OutOfRange(Float32)) else Ok(Float(GoFloat32, n as real))
    case _ => Err(CannotConvert(Float32))
  }

  function ToFloat64(v: Any): (r: Result<Any, ConvError>)
    ensures r.Err? ==> r.error.target == Float64
  {
    match v
    case Float(_, x) => Ok(Float(GoFloat64, x))
    case Int(_, i) => Ok(Float(GoFloat64, i as real))
    case Uint(_, n) => Ok(Float(GoFloat64, n as real))
    case _ => Err(CannotConvert(Float64))
  }

  function Zeros(n: nat): (z: seq<u8>)
    ensures |z| == n && forall i :: 0 <= i < n ==> z[i] == 0
  {
    seq(n, _ => 0)
  }

  /** Byte, Word and DWord: a [w]byte array. Integers are packed little-endian
      (byte k is `byte(v >> 8k)`; the Go code writes the high bytes of a narrow
      source as literal zeros, which is the same thing for every value of that
      source type); byte slices and strings are copied into a zeroed array. */
  function Pack(dt: DataType, w: nat, v: Any): (r: Result<Any, ConvError>)
    requires w in {1, 2, 4}
    ensures r.Err? ==> r.error.target == dt
    ensures r.Ok? ==> r.value.ByteArray? && |r.value.arr| == w
  {
    var max := Pow256(w) - 1;
    match v
    case ByteSlice(bs) => if |bs| > w then Err(TooLong(dt)) else Ok(ByteArray(bs + Zeros(w - |bs|)))
    case ByteArray(arr) => if |arr| == w then Ok(v) else Err(CannotConvert(dt))
    case Uint(k, n) =>
      if UintMax(k) > max && n > max then Err(OutOfRange(dt)) else Ok(ByteArray(LittleEndian(n, w)))
    case Int(k, i) =>
      if i < 0 || (IntMax(k) > max && i > max) then Err(OutOfRange(dt))
      else Ok(ByteArray(LittleEndian(i, w)))
    case Str(s) => if |s| > w then Err(TooLong(dt)) else Ok(ByteArray(s + Zeros(w - |s|)))
    case _ => Err(CannotConvert(dt))
  }

  // ----- properties of the codec -----

  function UnsignedKind(dt: DataType): UintKind
    requires dt in {UInt8, UInt16, UInt32, UInt64}
  {
    match dt
    case UInt8 => GoUint8
    case UInt16 => GoUint16
    case UInt32 => GoUint32
    case UInt64 => GoUint64
  }

  /** Unsigned targets keep an integer that fits and refuse, as out of
      range, one that is negative or too large. */
  lemma UnsignedTargetRange(dt: DataType, v: Any, format: Any -> seq<u8>)
    requires dt in {UInt8, UInt16, UInt32, UInt64}
    requires WellFormed(v) && IsInteger(v)
    ensures var x := IntegerValue(v);
      ConvertFromAny(dt, v, format) ==
        if 0 <= x <= UintMax(UnsignedKind(dt)) then Ok(Uint(UnsignedKind(dt), x))
        else Err(OutOfRange(dt))
  {
    var k := UnsignedKind(dt);
    match dt
    case UInt8 => ToUnsignedInteger(dt, k, 255.0, v);
    case UInt16 => ToUnsignedInteger(dt, k, 65535.0, v);
    case UInt32 => ToUnsignedInteger(dt, k, 4294967295.0, v);
    case UInt64 => ToUnsignedInteger(dt, k, 18446744073709551616.0, v);
  }

  lemma ToUnsignedInteger(dt: DataType, k: UintKind, hi: real, v: Any)
    requires WellFormed(v) && IsInteger(v)
    ensures var x := IntegerValue(v);
      ToUnsigned(dt, k, UintMax(k), hi, v) ==
        if 0 <= x <= UintMax(k) then Ok(Uint(k, x)) else Err(OutOfRange(dt))
  {
    var max := UintMax(k);
    match v
    case Int(ik, i) =>
      if 0 <= i <= max {
        assert WrapUnsigned(max + 1, i) == i;
      } else if i > max {
        assert IntMax(ik) > max;
      }
    case Uint(uk, n) =>
      if uk != k {
        if n <= max {
          assert WrapUnsigned(max + 1, n) == n;
        } else {
          assert UintMax(uk) > max;
        }
      }
  }

  /** The largest float an unsigned target accepts: the target's maximum
      as the comparison rounds it, which is exact up to UInt32 and 2^64 for
      UInt64. */
  function UnsignedFloatMax(dt: DataType): real
    requires dt in {UInt8, UInt16, UInt32, UInt64}
  {
    match dt
    case UInt8 => 255.0
    case UInt16 => 65535.0
    case UInt32 => 4294967295.0
    case UInt64 => 18446744073709551616.0
  }

  /** A float converts to an unsigned target exactly when it lies between
      zero and the target's maximum as the comparison rounds it; it then
      truncates toward zero, with no wrap except for UInt64 at exactly 2^64,
      and any other float is out of range. */
  lemma UnsignedTargetFloat(dt: DataType, v: Any, format: Any -> seq<u8>)
    requires dt in {UInt8, UInt16, UInt32, UInt64}
    requires v.Float?
    ensures ConvertFromAny(dt, v, format).Err? <==> v.r < 0.0 || v.r > UnsignedFloatMax(dt)
    ensures ConvertFromAny(dt, v, format).Err? ==> ConvertFromAny(dt, v, format) == Err(OutOfRange(dt))
    ensures 0.0 <= v.r <= UnsignedFloatMax(dt) && v.r < UintMax(UnsignedKind(dt)) as real + 1.0 ==>
      ConvertFromAny(dt, v, format) == Ok(Uint(UnsignedKind(dt), Trunc(v.r)))
  {
    var t := Trunc(v.r);
    var max := UintMax(UnsignedKind(dt));
    if 0.0 <= v.r <= UnsignedFloatMax(dt) && v.r < max as real + 1.0 {
      assert 0 <= t <= max;
      assert WrapUnsigned(max + 1, t) == t;
      assert ConvertFromAny(dt, v, format) == ToUnsigned(dt, UnsignedKind(dt), max, UnsignedFloatMax(dt), v);
    }
  }

  /** The edges of the UInt8 range: 255.0 converts, 255.5 does not. */
  lemma UInt8FloatEdges(format: Any -> seq<u8>)
    ensures ConvertFromAny(UInt8, Float(GoFloat64, 255.0), format) == Ok(Uint(GoUint8, 255))
    ensures ConvertFromAny(UInt8, Float(GoFloat64, 255.5), format) == Err(OutOfRange(UInt8))
  {
    UnsignedTargetFloat(UInt8, Float(GoFloat64, 255.0), format);
  }

  function SignedKind(dt: DataType): IntKind
    requires dt in {Int8, Int16, Int32, Int64}
  {
    match dt
    case Int8 => GoInt8
    case Int16 => GoInt16
    case Int32 => GoInt32
    case Int64 => GoInt64
  }

  function SignedModulus(dt: DataType): int
    requires dt in {Int8, Int16, Int32, Int64}
  {
    match dt
    case Int8 => 0x100
    case Int16 => 0x1_0000
    case Int32 => 0x1_0000_0000
    case Int64 => TwoTo64
  }

  /** Signed targets do not range-check integers: they wrap by
      two's-complement truncation, except that Int8 refuses an unsigned
      source above 127. */
  lemma SignedTargetWraps(dt: DataType, v: Any, format: Any -> seq<u8>)
    requires dt in {Int8, Int16, Int32, Int64}
    requires WellFormed(v) && IsInteger(v)
    requires dt == Int8 && v.Uint? ==> v.n <= 0x7F
    ensures ConvertFromAny(dt, v, format) ==
      Ok(Int(SignedKind(dt), Wrap(SignedModulus(dt), IntegerValue(v))))
  {
    var x := IntegerValue(v);
    if v.Int? && v.ik == SignedKind(dt) {
      // the identity arm: the value already fits, so wrapping keeps it
      var m := SignedModulus(dt);
      if x < 0 {
        assert x % m == x + m;
      } else {
        assert x % m == x;
      }
    }
  }

  lemma Int8RefusesLargeUnsigned(v: Any, format: Any -> seq<u8>)
    requires v.Uint? && v.n > 0x7F
    ensures ConvertFromAny(Int8, v, format) == Err(OutOfRange(Int8))
  {
  }

  /** The largest float a signed target accepts: the target's maximum as
      the comparison rounds it, 2^31 for Int32 against a float32 and 2^63
      for Int64. */
  function SignedFloatMax(dt: DataType, fk: FloatKind): real
    requires dt in {Int8, Int16, Int32, Int64}
  {
    match dt
    case Int8 => 127.0
    case Int16 => 32767.0
    case Int32 => if fk == GoFloat32 then 2147483648.0 else 2147483647.0
    case Int64 => 9223372036854775808.0
  }

  /** A float converts to a signed target exactly when it lies within the
      target's range; it then truncates toward zero (and wraps only at the
      rounded upper bound). Outside the range it fails: nothing is
      clamped. */
  lemma SignedTargetFloat(dt: DataType, v: Any, format: Any -> seq<u8>)
    requires dt in {Int8, Int16, Int32, Int64}
    requires v.Float?
    ensures var lo := IntMin(SignedKind(dt)) as real;
      var hi := SignedFloatMax(dt, v.fk);
      (ConvertFromAny(dt, v, format) == Err(OutOfRange(dt)) <==> v.r < lo || v.r > hi) &&
      (lo <= v.r <= hi ==>
        ConvertFromAny(dt, v, format) == Ok(Int(SignedKind(dt), Wrap(SignedModulus(dt), Trunc(v.r)))))
    ensures IntMin(SignedKind(dt)) as real <= v.r <= IntMax(SignedKind(dt)) as real ==>
      ConvertFromAny(dt, v, format) == Ok(Int(SignedKind(dt), Trunc(v.r)))
  {
    var t := Trunc(v.r);
    var m := SignedModulus(dt);
    if IntMin(SignedKind(dt)) as real <= v.r <= IntMax(SignedKind(dt)) as real {
      if t < 0 {
        assert t % m == t + m;
      } else {
        assert t % m == t;
      }
    }
  }

  /** Float sources into the float targets: Float64 keeps every float;
      Float32 keeps a float32 and accepts a float64 exactly when it lies
      within plus or minus math.MaxFloat32. */
  lemma FloatTargetsOnFloats(v: Any, format: Any -> seq<u8>)
    requires v.Float?
    ensures ConvertFromAny(Float64, v, format) == Ok(Float(GoFloat64, v.r))
    ensures v.fk == GoFloat32 ==> ConvertFromAny(Float32, v, format) == Ok(v)
    ensures v.fk == GoFloat64 ==>
      (ConvertFromAny(Float32, v, format) == Err(OutOfRange(Float32)) <==>
       v.r > MaxFloat32 || v.r < -MaxFloat32)
    ensures ConvertFromAny(Float32, v, format).Ok? ==>
      ConvertFromAny(Float32, v, format).value == Float(GoFloat32, v.r)
  {
  }

  /** Every numeric target refuses a bool, a string, a byte slice, an array
      and any other non-numeric value. */
  lemma NumericRefusesNonNumbers(dt: DataType, v: Any, format: Any -> seq<u8>)
    requires dt in {Int8, Int16, Int32, Int64, UInt8, UInt16, UInt32, UInt64, Float32, Float64}
    requires !(v.Int? || v.Uint? || v.Float?)
    ensures ConvertFromAny(dt, v, format) == Err(CannotConvert(dt))
  {
  }

  /** The String target never fails: a string passes through, a byte slice
      becomes the string of its bytes, and anything else is formatted. */
  lemma StringTarget(v: Any, format: Any -> seq<u8>)
    ensures ConvertFromAny(String, v, format).Ok?
    ensures v.Str? ==> ConvertFromAny(String, v, format) == Ok(v)
    ensures v.ByteSlice? ==> ConvertFromAny(String, v, format) == Ok(Str(v.bs))
    ensures !(v.Str? || v.ByteSlice?) ==> ConvertFromAny(String, v, format) == Ok(Str(format(v)))
  {
  }

  function PackWidth(dt: DataType): nat
    requires dt in {Byte, Word, DWord}
  {
    match dt
    case Byte => 1
    case Word => 2
    case DWord => 4
  }

  /** Byte, Word and DWord pack a non-negative integer that fits
      little-endian, and refuse any other integer as out of range. */
  lemma PackInteger(dt: DataType, v: Any, format: Any -> seq<u8>)
    requires dt in {Byte, Word, DWord}
    requires WellFormed(v) && IsInteger(v)
    ensures var x := IntegerValue(v);
      var w := PackWidth(dt);
      ConvertFromAny(dt, v, format) ==
        if 0 <= x < Pow256(w) then Ok(ByteArray(LittleEndian(x, w))) else Err(OutOfRange(dt))
  {
    assert Pow256(1) == 0x100 && Pow256(2) == 0x1_0000 && Pow256(4) == 0x1_0000_0000 by {
      assert Pow256(2) == 256 * Pow256(1);
      assert Pow256(4) == 256 * Pow256(3);
    }
  }

  /** Round trip: the bytes of a packed integer decode back to it. */
  lemma PackRoundTrip(dt: DataType, v: Any, format: Any -> seq<u8>)
    requires dt in {Byte, Word, DWord}
    requires WellFormed(v) && IsInteger(v)
    requires 0 <= IntegerValue(v) < Pow256(PackWidth(dt))
    ensures var packed := ConvertFromAny(dt, v, format);
      packed.Ok? && ConvertToBytes(packed.value).Ok?
      && FromLittleEndian(ConvertToBytes(packed.value).value) == IntegerValue(v)
  {
    PackInteger(dt, v, format);
    LittleEndianRoundTrip(IntegerValue(v), PackWidth(dt));
  }

  /** Byte, Word and DWord refuse floats and bools. */
  lemma PackRefusesFloatAndBool(dt: DataType, v: Any, format: Any -> seq<u8>)
    requires dt in {Byte, Word, DWord}
    requires v.Float? || v.Boolean?
    ensures ConvertFromAny(dt, v, format) == Err(CannotConvert(dt))
  {
  }

  /** A byte slice or string longer than the array fails; a shorter one is
      copied to the front of a zeroed array, which ConvertToBytes returns. */
  lemma PackBytes(dt: DataType, v: Any, format: Any -> seq<u8>)
    requires dt in {Byte, Word, DWord}
    requires v.ByteSlice? || v.Str?
    ensures var src := if v.ByteSlice? then v.bs else v.s;
      var w := PackWidth(dt);
      var packed := ConvertFromAny(dt, v, format);
      (|src| > w <==> packed == Err(TooLong(dt))) &&
      (|src| <= w ==>
        packed.Ok? && ConvertToBytes(packed.value).Ok? &&
        ConvertToBytes(packed.value).value[..|src|] == src &&
        forall i :: |src| <= i < w ==> ConvertToBytes(packed.value).value[i] == 0)
  {
  }

  /** A bool passes through; of the numeric values only an `int` zero is
      false (a zero of any other numeric type is true); other types fail. */
  lemma BoolCoercion(v: Any, format: Any -> seq<u8>)
    ensures v.Boolean? ==> ConvertFromAny(Bool, v, format) == Ok(v)
    ensures v.Int? || v.Uint? || v.Float? ==>
      ConvertFromAny(Bool, v, format) == Ok(Boolean(v != Int(GoInt, 0)))
    ensures !(v.Boolean? || v.Int? || v.Uint? || v.Float?) ==>
      ConvertFromAny(Bool, v, format) == Err(CannotConvert(Bool))
  {
  }

  function NumericMin(dt: DataType): int
    requires dt in {Int8, Int16, Int32, Int64, UInt8, UInt16, UInt32, UInt64}
  {
    if dt in {UInt8, UInt16, UInt32, UInt64} then 0 else IntMin(SignedKind(dt))
  }

  function NumericMax(dt: DataType): int
    requires dt in {Int8, Int16, Int32, Int64, UInt8, UInt16, UInt32, UInt64}
  {
    if dt in {UInt8, UInt16, UInt32, UInt64} then UintMax(UnsignedKind(dt)) else IntMax(SignedKind(dt))
  }

  /** Round trip: converting an integer that fits the integer target and
      canonicalising the result to float64 gives the integer back. */
  lemma NumericRoundTrip(dt: DataType, v: Any, format: Any -> seq<u8>)
    requires dt in {Int8, Int16, Int32, Int64, UInt8, UInt16, UInt32, UInt64}
    requires WellFormed(v) && IsInteger(v)
    requires NumericMin(dt) <= IntegerValue(v) <= NumericMax(dt)
    ensures var c := ConvertFromAny(dt, v, format);
      c.Ok? && ConvertToFloat64(c.value) == Ok(IntegerValue(v) as real)
  {
    var x := IntegerValue(v);
    if dt in {UInt8, UInt16, UInt32, UInt64} {
      UnsignedTargetRange(dt, v, format);
    } else {
      SignedTargetWraps(dt, v, format);
      var m := SignedModulus(dt);
      if x < 0 {
        assert x % m == x + m;
      } else {
        assert x % m == x;
      }
    }
  }

  /** Float32 and Float64 accept every integer of a narrow type and keep its
      value. */
  lemma FloatTargetKeepsIntegers(dt: DataType, v: Any, format: Any -> seq<u8>)
    requires dt in {Float32, Float64}
    requires WellFormed(v) && IsInteger(v)
    ensures var c := ConvertFromAny(dt, v, format);
      c.Ok? && ConvertToFloat64(c.value) == Ok(IntegerValue(v) as real)
  {
  }
}
