# edge-expr data plane in Dafny

This project models the in-memory data plane of edge-expr. edge-expr is a Go library for
edge gateways. It names the variables of a device, converts raw readings to a variable's
data type, keeps a short time-stamped history of each variable, and decides when values
are published. The model covers these parts:

- **Data types** (`data_type.dfy`, module `DataTypes`):
  - the fifteen canonical data type names and the validator;
  - `ParseDataType` with its PLC aliases and `String[n]` / `WString[n]` sizes;
  - the conversions `ConvertFromAny`, `ConvertToFloat64` and `ConvertToBytes`.

  Go's dynamic `any` is a datatype `Any` that records the Go kind of every integer
  (`int8` … `uint64`, `int`, `uint`). Integer widths, two's-complement wrap-around and
  truncation toward zero are written out in `go_ints.dfy` (module `GoInts`).
- **Caches** (`cache.dfy`, module `TimeSeries`): `Cache` is a class whose `points`
  history `AddPoint` and expiry update in place. It has:
  - the queries on the newest values (`Value`, `Timestamp`, `Diff`, `PctChange`,
    `Changed`, `Rising`, `Falling`, `Bit`, `ByteBit`);
  - the window queries, which are loops proved against specification functions
    (`Count`, `MA`, `RC`, `FC`, `DiffSince`, `PctChangeSince`).
- **Variables** (`variable.dfy`, module `Variables`): `Variable` is a class. Modelled are:
  - the decoding steps that follow the JSON decode: data type, tag and event checks,
    publish cycle, cache duration and cache creation;
  - `WriteValue`, which converts, calibrates and records a value;
  - `Read`, which reports the newest value and whether it changed.
- **Publishing** (`variable_push.dfy`, module `Publishing`):
  - the tick schedule derived from the publish cycle;
  - the comparison with the last pushed value;
  - the points `GetPushValues` returns, including the backfill of the previous point
    after a step.
- **Device models** (`device_model.dfy`, module `DeviceModels`): the decoding steps of a
  device model.
  - Nil maps become empty ones.
  - The expression environment is gathered from the variables' caches.
  - Every map key is checked against `^\w+$` and against the variable's own key.
  - The scripts of computed variables are compiled.
  - All problems are reported in one message: a header, then the problems sorted and
    one per line.

  Go's map iteration order is arbitrary, so the loop is proved for every visit order. The
  result is stated through the multiset of problems, and a lemma shows that sorting makes
  the message independent of that order. `Text` (`text.dfy`) holds Go's string order,
  `sort.Strings` and `strings.Join`.

The condition at variable_push.go:20 reads as if a non-positive publish cycle publishes
only on change. In fact a cycle of at most −gcd gives a non-zero `times`
(variable_push.go:17-18), so it also publishes on that periodic schedule.
`Publishing.NegativeCycleIsPeriodic` shows this for a cycle of −10 on a tick of 5.
`Publishing.OnChangeSchedule` states the on-change-only rule where it does hold: a
non-positive cycle shorter than the tick.

These are parameters supplied by the caller:

- The clock: `now` and the tick index.
- The outcome of `time.ParseDuration`: a `DurationText` that is absent, parsed or
  malformed.
- The expression compiler: a function from script and environment to a program or an
  error message.
- The `%v` formatter used when a value is converted to a string.

## Model

| member | source | states |
|---|---|---|
| DataTypes.Values | data_type.go:46-64 | Fifteen names, one for every data type. |
| DataTypes.DataTypeValidator | data_type.go:37-44 | Accepts exactly the canonical names; otherwise the invalid-enum error names the value. |
| DataTypes.DecimalRoundTrip | data_type.go:135-138 | The decimal digits of a size parse back to that size. |
| DataTypes.MatchSizedString | data_type.go:134-137 | A `String[n]` / `WString[n]` match yields a non-empty run of digits. |
| DataTypes.Atoi | data_type.go:138 | The parsed size lies in 0..MaxInt64, as strconv.Atoi allows for a 64-bit int. |
| DataTypes.ParseDataType | data_type.go:83-146 | Fails exactly when the name is in neither the table nor the sized-string pattern, with the unknown-type error naming it; every sized name resolves to String. |
| DataTypes.ParseKnownName | data_type.go:84-114 | Every canonical name parses to its own type with its fixed byte width and passes the validator. |
| DataTypes.ParseTimeAliases | data_type.go:115-123 | S5Time, Time and LTime resolve to Int16/2, Int32/4 and Int64/8. |
| DataTypes.ParseDateAliases | data_type.go:115-132 | DTL, Date, Date_And_Time, LDT, LTime_Of_Day and Time_Of_Day resolve to String with widths 12, 2, 8, 8, 8 and 4. |
| DataTypes.ParseSizedString | data_type.go:133-145 | `String[n]` resolves to String with n + 2 bytes. |
| DataTypes.ParseSizedWString | data_type.go:133-145 | `WString[n]` resolves to String with 2n + 4 bytes. |
| DataTypes.FixedTableDomain | data_type.go:84-132 | The fixed table knows exactly the canonical names and the aliases. |
| DataTypes.ParseUnknown | data_type.go:83-146 | Parsing fails if and only if the name is no canonical name, no alias and no sized string. |
| DataTypes.ConvertToFloat64 | data_type.go:148-177 | Succeeds exactly on integers and floats; an integer keeps its value, a float is returned as is. |
| DataTypes.ConvertToBytes | data_type.go:855-870 | Succeeds exactly on byte slices, strings and 1-, 2- and 4-byte arrays. |
| DataTypes.ConvertFromAny | data_type.go:179-853 | A success has the target's Go type and a well-formed value; every error names the target type. |
| DataTypes.Pack | data_type.go:654-849 | A Byte, Word or DWord result is a byte array of width 1, 2 or 4. |
| DataTypes.UnsignedTargetRange | data_type.go:345-571 | An integer converts to UInt8..UInt64 exactly when it lies in 0..max, keeping its value; otherwise out of range. |
| DataTypes.UnsignedTargetFloat | data_type.go:345-571 | A float converts to UInt8..UInt64 exactly when it lies in 0..max, with max as the comparison rounds it (2^64 for UInt64); it then truncates toward zero, and any other float is out of range. |
| DataTypes.UInt8FloatEdges | data_type.go:395-402 | 255.0 converts to UInt8 and 255.5 is out of range. |
| DataTypes.SignedTargetWraps | data_type.go:190-344 | An integer converts to Int8..Int64 by two's-complement wrap to the target width; only Int8 refuses a large unsigned value. |
| DataTypes.Int8RefusesLargeUnsigned | data_type.go:190-239 | An unsigned value above 127 is out of range for Int8. |
| DataTypes.SignedTargetFloat | data_type.go:190-343 | A float converts to Int8..Int64 exactly when it lies between the minimum and the maximum as the comparison rounds it; it then truncates toward zero, and any other float is out of range. |
| DataTypes.FloatTargetsOnFloats | data_type.go:572-644 | Float64 keeps every float; Float32 keeps a float32 and accepts a float64 exactly within ±MaxFloat32, keeping its value. |
| DataTypes.NumericRefusesNonNumbers | data_type.go:190-644 | Every numeric target refuses a bool, string, byte slice, array or other value with cannot-convert. |
| DataTypes.StringTarget | data_type.go:645-653 | The String target never fails: a string passes through, a byte slice becomes its bytes, anything else is formatted. |
| DataTypes.PackInteger | data_type.go:654-849 | An integer packs into a Byte, Word or DWord as its little-endian bytes when it fits, and is out of range otherwise. |
| DataTypes.PackRoundTrip | data_type.go:654-870 | The bytes of a packed integer decode back to the integer. |
| DataTypes.PackRefusesFloatAndBool | data_type.go:654-849 | Byte, Word and DWord refuse floats and bools. |
| DataTypes.PackBytes | data_type.go:654-849 | A slice or string longer than the array is too long; a shorter one is copied to the front of a zeroed array. |
| DataTypes.BoolCoercion | data_type.go:181-189 | A bool passes through; a number is true unless it is an `int` zero; anything else fails. |
| DataTypes.NumericRoundTrip | data_type.go:190-571 | An integer within a numeric target's range converts and reads back as the same float64. |
| DataTypes.FloatTargetKeepsIntegers | data_type.go:572-644 | Float32 and Float64 accept every integer and keep its value. |
| GoInts.LittleEndianRoundTrip | data_type.go:734-741 | Writing a fitting integer as w little-endian bytes and reading them back gives the integer. |
| GoInts.Trunc | data_type.go:190-309 | Go's float-to-int conversion truncates toward zero. |
| GoInts.Wrap | data_type.go:190-344 | A signed conversion lands in the target's two's-complement range. |
| TimeSeries.ZeroValue | cache.go:28-37 | The zero value of an empty cache has the cache's element kind. |
| TimeSeries.PointsAfter | cache.go:389-421 | The window keeps exactly the points stamped after the cutoff, and never more points than the history has. |
| TimeSeries.PointsAfterAppend | cache.go:389-421 | The window filter distributes over concatenation. |
| TimeSeries.Changes | cache.go:368-385 | A history has at most one value change per adjacent pair. |
| TimeSeries.RunsBoundDistinctValues | cache.go:368-385 | The count of runs is at least the number of distinct values. |
| TimeSeries.RunsOfConstant | cache.go:368-385 | A non-empty constant history counts one run. |
| TimeSeries.RunsExample | cache.go:368-385 | 1,1,2,2,2,3 counts three runs. |
| TimeSeries.RisesMinusFalls | cache.go:497-554 | Over a bool history, rises minus falls equals last minus first. |
| TimeSeries.EdgesExample | cache.go:497-554 | false,true,false,true,true has two rises and one fall. |
| TimeSeries.SumBounds | cache.go:95-112 | A sum of n values within [lo, hi] lies within [n·lo, n·hi]. |
| TimeSeries.MeanBounds | cache.go:95-112 | The moving average of values within [lo, hi] lies within [lo, hi]. |
| TimeSeries.MeanOfConstant | cache.go:95-112 | The moving average of a constant is that constant. |
| TimeSeries.LastBefore | cache.go:253-312 | Finds the last point stamped before the target, or reports that there is none. |
| TimeSeries.Pct | cache.go:175-184 | Fails exactly from zero to non-zero; zero to zero is 0; otherwise current = base + base·pct/100. |
| TimeSeries.SinceOperands | cache.go:253-366 | A non-float newest value is the not-float error, a missing window the invalid-window error, no earlier point the no-baseline error; a float baseline gives the newest and baseline values, and a non-float one the not-float error. |
| TimeSeries.FirstStamped | cache.go:621-646 | Finds the first point with the given timestamp, or reports that there is none. |
| TimeSeries.LivePoints | cache.go:648-663 | Keeps exactly the points no older than the expiry, and never more points than the history has. |
| TimeSeries.UpsertExisting | cache.go:621-646 | A timestamp already present overwrites that point's value in place and leaves the rest unchanged. |
| TimeSeries.UpsertNew | cache.go:621-646 | A new timestamp appends a point. |
| TimeSeries.UpsertKeepsValid | cache.go:621-646 | Recording keeps one element kind and distinct timestamps. |
| TimeSeries.LivePointsKeepsValid | cache.go:648-663 | Eviction keeps one element kind and distinct timestamps. |
| TimeSeries.EvictIdempotent | cache.go:648-663 | Evicting twice at the same instant is evicting once. |
| TimeSeries.LivePointsAllLive | cache.go:648-663 | A history with nothing expired is kept whole. |
| TimeSeries.Cache.Value | cache.go:28-37 | The newest value, or the zero value when the cache is empty. |
| TimeSeries.Cache.Timestamp | cache.go:51-63 | The newest point's timestamp; none when the cache is empty. |
| TimeSeries.Cache.Newest | cache.go:66-80 | The newest point; none exactly when the cache is empty. |
| TimeSeries.Cache.Len | cache.go:83-92 | The length is zero exactly when the cache is empty. |
| TimeSeries.Cache.Diff | cache.go:188-211 | Zero with fewer than two points; otherwise newest minus previous, an error unless both are floats. |
| TimeSeries.Cache.PctChange | cache.go:154-185 | Zero with fewer than two points; succeeds whenever both newest values are floats and the previous is non-zero, relating them by the percentage; from zero, zero or an error. |
| TimeSeries.Cache.DiffExceeds | cache.go:225-233 | True when the difference exceeds the threshold in either direction; errors pass through. |
| TimeSeries.Cache.PctChangeExceeds | cache.go:214-222 | True when the percentage change exceeds the threshold in either direction; errors pass through. |
| TimeSeries.Cache.Changed | cache.go:236-250 | True exactly when the last two values differ. |
| TimeSeries.Cache.Rising | cache.go:450-471 | True exactly on a false-to-true last step; false with fewer than two points; otherwise the not-bool error. |
| TimeSeries.Cache.Falling | cache.go:473-494 | True exactly on a true-to-false last step; false with fewer than two points; otherwise the not-bool error. |
| TimeSeries.Cache.Bit | cache.go:560-587 | Bit `index` of the newest bytes, least significant bit first; range and type errors. |
| TimeSeries.Cache.ByteBit | cache.go:591-619 | Bit i of byte n of the newest bytes; byte-index and bit-index errors. |
| TimeSeries.Cache.PointsInWindow | cache.go:389-421 | The loop returns exactly the points after now − window, or every point when there is no window. |
| TimeSeries.Cache.Count | cache.go:368-385 | The loop counts the runs of equal values in the window, which is at most the window's size and at least its number of distinct values. |
| TimeSeries.Cache.MA | cache.go:95-112 | The loop computes the mean of the window, with the float and empty-window errors. |
| TimeSeries.Cache.RC | cache.go:497-524 | Rising edges in the window; zero below two points; an error on a non-bool. |
| TimeSeries.Cache.FC | cache.go:527-554 | Falling edges in the window; zero below two points; an error on a non-bool. |
| TimeSeries.Cache.Edges | cache.go:497-554 | The shared counting loop computes the rises or the falls of the window. |
| TimeSeries.Cache.FindBaseline | cache.go:253-312 | The backward search finds the last point stamped before the target. |
| TimeSeries.Cache.DiffSince | cache.go:315-366 | The newest value minus the baseline value, with the history's errors. |
| TimeSeries.Cache.PctChangeSince | cache.go:253-312 | The percentage change from the baseline to the newest value, with the history's errors. |
| TimeSeries.Cache.SinceOperandsOf | cache.go:253-366 | The shared part of the two queries returns the newest and baseline values or the error. |
| TimeSeries.Cache.AddPoint | cache.go:621-646 | The new history is the old one with the point recorded, then expired; one kind and distinct timestamps are kept. |
| TimeSeries.Cache.CleanExpired | cache.go:648-663 | The new history is the old one with expired points removed; the invariant is kept. |
| TimeSeries.IsValueEqual | cache.go:424-446 | Equal exactly when the values are equal; byte slices are compared byte by byte. |
| TimeSeries.AddPointRecords | cache.go:621-646 | A point that has not expired is present after it is added. |
| TimeSeries.AddNewestThenValue | cache.go:621-646 | A point newer than all others becomes the newest point. |
| Text.Sort | device_model.go:59-61 | The result is sorted and holds the same strings. |
| Text.SortedUnique | device_model.go:59-61 | Two sorted sequences with the same elements are equal. |
| Text.InsertSorted | device_model.go:59-61 | Insertion keeps a sequence sorted. |
| Text.LessEqTotal | device_model.go:59-61 | Go's string order is total. |
| Text.LessEqAntisymmetric | device_model.go:59-61 | Go's string order is antisymmetric. |
| Text.LessEqTransitive | device_model.go:59-61 | Go's string order is transitive. |
| Text.Join | device_model.go:61 | Joining nothing is empty; joining one string is that string. |
| Variables.CacheKindFor | variable.go:264-291 | Numeric types get a float64 cache, Bool a bool cache, String a string cache, Byte/Word/DWord a byte cache. |
| Variables.CalibrateRoundTrip | variable.go:212-218 | Calibration by a non-zero scale and an offset can be undone. |
| Variables.Ingest | variable.go:205-262 | A missing type is an error. A numeric write stores the calibrated float64. A Bool write stores the converted bool, and a byte-array write stores the bytes of the converted array. A String write always succeeds. A failed conversion reports the conversion error. |
| Variables.Variable.CreateCache | variable.go:264-291 | A fresh empty cache of the type's element kind with the cache duration as expiry (a minute by default); none without a type. |
| Variables.Variable.FinishDecode | variable.go:73-106 | Sets the type and width, then reports the first failed check, in the source's order; the cycle, duration and cache are set as decoding gets that far. |
| Variables.Variable.WriteValue | variable.go:205-262 | A conversion error or a cache of another kind leaves the history unchanged; otherwise the value is recorded at `t`, or `now` when nil. |
| Variables.Variable.Read | variable.go:141-171 | The newest value and timestamp; a numeric change is judged by the percentage threshold, else the difference threshold; other types use Changed. |
| Variables.EarlyCheck | variable.go:74-84 | No error exactly when a connected variable's type parses, a tag is a String and an event is a Bool. |
| Variables.DecodeCheck | variable.go:73-106 | Decoding succeeds exactly when the early checks pass and neither duration is malformed. |
| Variables.TagAndEventExclusive | variable.go:79-84 | A variable that is both a tag and an event never decodes. |
| Variables.NumericWriteRecoverable | variable.go:205-223 | A numeric write stores a float from which the raw reading can be recovered. |
| Variables.ByteArrayWriteRoundTrip | variable.go:244-262 | A byte-array write of a fitting integer stores bytes that decode back to it. |
| Publishing.ChangedSincePush | variable_push.go:61-112 | No cache: no change. Nothing pushed, or a push of another kind: a change. Floats use the difference threshold first, then the percentage threshold, then inequality. Other values compare for equality. |
| Publishing.PushPct | variable_push.go:78 | From zero to zero is 0, from zero to non-zero the largest float64, otherwise the percentage that relates the last push to the current value. |
| Publishing.ChangedWithLatestPushValue | variable_push.go:61-112 | The byte-by-byte comparison loop agrees with the change rule. |
| Publishing.PushesOf | variable_push.go:9-59 | At most two points, the newest last. A due tick on a non-empty cache pushes. Two points are pushed exactly after a float change whose previous point is stamped differently from the last push. Non-float caches push at most one point. |
| Publishing.GetPushValues | variable_push.go:9-59 | Returns the scheduled points and records the newest as the last push; nothing else changes. |
| Publishing.EverySecondTick | variable_push.go:17-20 | A cycle of 10 on a tick of 5 is due on ticks 0 and 2, and not on 1 or 3. |
| Publishing.PeriodicSchedule | variable_push.go:17-20 | A cycle of at least the tick is due every (cycle / gcd)-th tick, changed or not. |
| Publishing.ShortCycleNeverDue | variable_push.go:17-20 | A positive cycle shorter than the tick has `times` zero and is never due, changed or not. |
| Publishing.OnChangeSchedule | variable_push.go:17-20 | A non-positive cycle shorter than the tick is due exactly on a change. |
| Publishing.NegativeCycleIsPeriodic | variable_push.go:17-20 | A cycle of −10 on a tick of 5 is due on ticks 0 and 2 without a change, and not on tick 1. |
| Publishing.NegativeCycleDueOnSchedule | variable_push.go:17-20 | A cycle of at most −gcd gives a non-zero `times` and is due on every multiple of it, changed or not. |
| Publishing.StepFromZeroIsChange | variable_push.go:77-80 | A step away from zero exceeds every finite percentage threshold. |
| Publishing.DiffThresholdRule | variable_push.go:74-76 | With a difference threshold, whatever the percentage threshold, a change is a distance of at least the threshold. |
| Publishing.PctThresholdRule | variable_push.go:77-80 | Without a difference threshold, a percentage threshold compares the relative change from a non-zero last push. |
| Publishing.ZeroToZeroUnchanged | variable_push.go:77-80 | From zero to zero is no change under a positive percentage threshold. |
| Publishing.NoThresholdRule | variable_push.go:81 | Without thresholds, any difference of the float value is a change. |
| Publishing.PushResetsChange | variable_push.go:61-112 | Right after the newest point is pushed, no change is seen under positive thresholds. |
| Publishing.NoBackfillAfterPush | variable_push.go:9-59 | Once the newest point was pushed, at most one point is pushed, and only on schedule. |
| DeviceModels.WordKeyExamples | device_model.go:40 | `temperature_1` and `T2` are word keys; `bad-key`, the empty key and `a b` are not. |
| DeviceModels.KeyErrors | device_model.go:43-58 | An entry has no problem exactly when its key is a word equal to the variable's key and no computed script fails; at most three problems. |
| DeviceModels.GatherRemove | device_model.go:43-58 | Gathering over a key set is gathering over the rest plus that key's problems. |
| DeviceModels.ErrorsOfRemove | device_model.go:43-58 | The problems of a key set are those of the rest plus one entry's. |
| DeviceModels.ErrorsAlong | device_model.go:43-58 | A visit collects at most three problems per key. |
| DeviceModels.ErrorsAlongAll | device_model.go:43-58 | Every visit order of the keys collects the same multiset of problems. |
| DeviceModels.ErrorsOfContains | device_model.go:43-58 | Every entry's problems are among the reported ones. |
| DeviceModels.ErrorsOfEmpty | device_model.go:43-59 | Nothing is reported exactly when no entry has a problem. |
| DeviceModels.EnvOfEntries | device_model.go:33-38 | The environment holds every variable's cache under its key, and only those. |
| DeviceModels.OutcomeIgnoresOrder | device_model.go:59-62 | The result depends only on which problems were found, not on their order. |
| DeviceModels.OutcomeIsReportOf | device_model.go:59-62 | The result for a list of problems is the result for its multiset. |
| DeviceModels.DecodeFailsIff | device_model.go:43-64 | Decoding fails exactly when some entry has a problem, and the message then lists every problem. |
| DeviceModels.BuildEnv | device_model.go:33-38 | The loop builds exactly the environment of the variables' caches. |
| DeviceModels.CheckEntry | device_model.go:44-57 | Reports the entry's problems; a computed script that compiles becomes the variable's program, and otherwise the program is kept. |
| DeviceModels.Visit | device_model.go:43-58 | Checking one more entry keeps every visited variable's program settled. |
| DeviceModels.CheckAll | device_model.go:43-58 | Visiting the entries in any order reports exactly the multiset of their problems and settles every variable's program. |
| DeviceModels.CompileAll | device_model.go:33-64 | The result is the sorted report of every entry's problems against the environment from before decoding, or none. |
| DeviceModels.DeviceModel.FinishDecode | device_model.go:19-65 | Nil maps become empty; the result is the report of all problems; every computed variable whose script compiles holds its program. |

## Left out

- JSON decoding itself, `MarshalJSON`, the GraphQL marshalling and the md5 `Hash` of variables and device models: the model starts from decoded fields.
- Floating point is modelled as exact reals. float32/float64 rounding, NaN and infinities are not modelled. The range checks use the Go constants as the comparison rounds them (2^31, 2^63, 2^64).
- A float that passes a range check but does not fit the target type, which happens only at the rounded bounds 2^31, 2^63 and 2^64, is modelled as truncation followed by two's-complement wrap. Go leaves that result to the implementation.
- DataTypes.UnsignedTargetFloat: does not state the result of a UInt64 conversion of exactly 2^64, because that result depends on the wrap above.
- `ConvertFromAny` on a data type string outside the fifteen is not modelled: the data type is an enumeration here.
- The `%v` formatting of a value converted to String is a parameter.
- `Cache.Latest` is not modelled separately: its body is the same as `Value`.
- `Cache.StdDev` is not modelled: it needs a square root.
- Methods on a nil `*Cache` receiver are not modelled.
- `int64` overflow of the time arithmetic (now − window, now − timestamp) is not modelled.
- The mutex around every cache operation is not modelled: each operation is one atomic step.
- `time.Now` and `time.ParseDuration` are parameters (`now`, `DurationText`).
- Publishing.PushesOf: requires a non-zero tick `gcd`. Go panics on the division by zero at variable_push.go:18, and that panic is not modelled.
- Publishing.GetPushValues: requires a non-zero tick `gcd` for the same reason.
- TimeSeries.Cache.AddPoint: takes one `now` for both clock reads. Go reads the clock once to stamp a point without a timestamp (cache.go:627) and again when it evicts expired points (cache.go:653). The model therefore never evicts a freshly stamped point on insertion, which `TimeSeries.AddPointRecords` relies on.
- The push value of a cache is taken to be its newest point, or none when the cache is empty.
- The expression compiler (`expr.Compile`) and its programs are an opaque parameter.
- A nil `*Variable` inside the device model's variable map is not modelled.
- The order in which Go visits a map is not modelled: the device model's loops are proved for every order.
- DeviceModels.DeviceModel.FinishDecode: the two nil-map initialisations are performed after the variable checks rather than before them. The two steps touch disjoint state.
- edge_expr.go (expression evaluation, the publishing ticker), comm.go, the entity model, events, fields and the wasm build are not part of this model.
