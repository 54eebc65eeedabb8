/**
 * The `Writer` dataclass of polars_writer/writer.py: a configuration value
 * (one format selector plus per-format option fields, each possibly left
 * unset), its construction-time validation, the five format predicates, the
 * three resolvers that map a configuration to an engine method name and a
 * keyword-argument dictionary, and the caller-override merge.
 */
module Writer {
  import opened Wrappers
  import opened Enums
  import opened Kwargs

  /**
   * The dataclass fields, in declaration order. `format` has no default and so
   * is always present; every other field defaults to `NOTHING` (`Unset`).
   */
  datatype Config = Config(
    format: Value,
    // common
    storageOptions: Field,
    // csv
    csvIncludeHeader: Field,
    csvDelimiter: Field,
    csvLineTerminator: Field,
    csvQuoteChar: Field,
    csvDatetimeFormat: Field,
    csvDateFormat: Field,
    csvFloatScientific: Field,
    csvFloatPrecision: Field,
    csvNullValue: Field,
    csvQuoteStyle: Field,
    // parquet
    parquetCompression: Field,
    parquetCompressionLevel: Field,
    parquetStatistics: Field,
    parquetRowGroupSize: Field,
    parquetDataPageSize: Field,
    parquetUsePyarrow: Field,
    parquetPyarrowOptions: Field,
    parquetPartitionBy: Field,
    parquetPartitionChunkSizeBytes: Field,
    // delta
    deltaMode: Field,
    deltaOverwriteSchema: Field,
    deltaWriteOptions: Field,
    deltaMergeOptions: Field)

  /**
   * The field values of `Writer(format=format)`: every other field keeps its
   * `NOTHING` default, so the record is valid exactly when the format is.
   */
  function WithFormat(format: Value): (c: Config)
    ensures c.format == format
    ensures Valid(c) <==> format.Str? && format.s in FormatTokens
  {
    Config(format,
      Unset,
      Unset, Unset, Unset, Unset, Unset, Unset, Unset, Unset, Unset, Unset,
      Unset, Unset, Unset, Unset, Unset, Unset, Unset, Unset, Unset,
      Unset, Unset, Unset, Unset)
  }

  // ---------------------------------------------------------------- validation

  /** The format a value names: a string that is a FormatEnum name, or nothing. */
  function FormatOf(v: Value): (r: Option<Format>)
    ensures r.Some? <==> v.Str? && v.s in FormatTokens
  {
    if v.Str? then ParseFormat(v.s) else None
  }

  function CompressionOf(v: Value): (r: Option<Compression>)
    ensures r.Some? <==> v.Str? && v.s in CompressionTokens
  {
    if v.Str? then ParseCompression(v.s) else None
  }

  function DeltaModeOf(v: Value): (r: Option<DeltaMode>)
    ensures r.Some? <==> v.Str? && v.s in DeltaModeTokens
  {
    if v.Str? then ParseDeltaMode(v.s) else None
  }

  /**
   * The invariant every constructed Writer satisfies: the format, and the
   * compression and delta mode where set, each name a member of their enumeration.
   */
  predicate Valid(c: Config): (b: bool)
    ensures b <==>
      && FormatOf(c.format).Some?
      && (c.parquetCompression.Val? ==> CompressionOf(c.parquetCompression.v).Some?)
      && (c.deltaMode.Val? ==> DeltaModeOf(c.deltaMode.v).Some?)
  {
    && c.format.Str? && c.format.s in FormatTokens
    && (c.parquetCompression.Val? ==> c.parquetCompression.v.Str? && c.parquetCompression.v.s in CompressionTokens)
    && (c.deltaMode.Val? ==> c.deltaMode.v.Str? && c.deltaMode.v.s in DeltaModeTokens)
  }

  /** The ValueError raised by `__post_init__`, each naming the offending value. */
  datatype ConstructError =
    | InvalidFormat(format: Value)
    | InvalidCompression(compression: Value)
    | InvalidDeltaMode(mode: Value)
    // the TypeErrors of `cls(**dct)`
    | UnexpectedKeyword
    | MissingFormat

  /**
   * `Writer(...)`: the dataclass constructor followed by `__post_init__`.
   * The three checks run in order, and the compression and delta-mode checks
   * run whatever the format is.
   */
  function Construct(c: Config): (r: Result<Config, ConstructError>)
    ensures r.Ok? <==> Valid(c)
    ensures r.Ok? ==> r.value == c
    ensures FormatOf(c.format).None? ==> r == Err(InvalidFormat(c.format))
    ensures r.Err? && r.error.InvalidCompression? <==>
      FormatOf(c.format).Some? && c.parquetCompression.Val? && CompressionOf(c.parquetCompression.v).None?
    ensures r.Err? && r.error.InvalidCompression? ==> r.error.compression == c.parquetCompression.v
    ensures r.Err? && r.error.InvalidDeltaMode? <==>
      && FormatOf(c.format).Some?
      && (c.parquetCompression.Val? ==> CompressionOf(c.parquetCompression.v).Some?)
      && c.deltaMode.Val? && DeltaModeOf(c.deltaMode.v).None?
    ensures r.Err? && r.error.InvalidDeltaMode? ==> r.error.mode == c.deltaMode.v
    ensures r.Err? ==> r.error.InvalidFormat? || r.error.InvalidCompression? || r.error.InvalidDeltaMode?
  {
    if FormatOf(c.format).None? then
      Err(InvalidFormat(c.format))
    else if c.parquetCompression.Val? && CompressionOf(c.parquetCompression.v).None? then
      Err(InvalidCompression(c.parquetCompression.v))
    else if c.deltaMode.Val? && DeltaModeOf(c.deltaMode.v).None? then
      Err(InvalidDeltaMode(c.deltaMode.v))
    else
      Ok(c)
  }

  // --------------------------------------------------------------- predicates

  // Each `is_*` compares the format with one FormatEnum value, so it holds
  // exactly when the format names that member.

  predicate IsCsv(c: Config): (b: bool)
    ensures b <==> FormatOf(c.format) == Some(Csv)
  {
    c.format == Str("csv")
  }

  predicate IsJson(c: Config): (b: bool)
    ensures b <==> FormatOf(c.format) == Some(Json)
  {
    c.format == Str("json")
  }

  predicate IsNdjson(c: Config): (b: bool)
    ensures b <==> FormatOf(c.format) == Some(Ndjson)
  {
    c.format == Str("ndjson")
  }

  predicate IsParquet(c: Config): (b: bool)
    ensures b <==> FormatOf(c.format) == Some(Parquet)
  {
    c.format == Str("parquet")
  }

  predicate IsDelta(c: Config): (b: bool)
    ensures b <==> FormatOf(c.format) == Some(Delta)
  {
    c.format == Str("delta")
  }

  // ---------------------------------------------------------------- resolvers

  /** The NotImplementedError of the fallback branches and the scan_json ValueError. */
  datatype ResolveError = NotImplemented | ScanJsonUnsupported

  /** The argument names each write method may receive. */
  function WriteArgNames(f: Format): set<string> {
    match f
    case Csv => {"include_header", "separator", "line_terminator", "quote_char", "datetime_format",
                 "date_format", "float_scientific", "float_precision", "null_value", "quote_style"}
    case Json => {}
    case Ndjson => {}
    case Parquet => {"compression", "compression_level"}
    case Delta => {"mode", "overwrite_schema", "delta_write_options", "delta_merge_options", "storage_options"}
  }

  /** The argument names each read (and scan) function may receive. */
  function ReadArgNames(f: Format): set<string> {
    match f
    case Csv => {"has_header", "separator", "eol_char", "quote_char", "storage_options"}
    case Json => {}
    case Ndjson => {}
    case Parquet => {"use_pyarrow", "storage_options"}
    case Delta => {"storage_options"}
  }

  /** `to_method_and_kwargs`: the write method for the format and its arguments. */
  function ResolveWrite(c: Config): (r: Result<(string, Kwargs), ResolveError>)
    ensures r.Ok? <==> FormatOf(c.format).Some?
    ensures r.Err? ==> r.error == NotImplemented
    ensures r.Ok? ==> r.value.0 == "write_" + c.format.s
    ensures r.Ok? ==> r.value.1.Keys <= WriteArgNames(FormatOf(c.format).value)
  {
    if IsCsv(c) then
      Ok((WriteMethod(Csv), CsvWriteKwargs(c)))
    else if IsJson(c) then
      Ok((WriteMethod(Json), map[]))
    else if IsNdjson(c) then
      Ok((WriteMethod(Ndjson), map[]))
    else if IsParquet(c) then
      Ok((WriteMethod(Parquet), ParquetWriteKwargs(c)))
    else if IsDelta(c) then
      Ok((WriteMethod(Delta), DeltaWriteKwargs(c)))
    else
      Err(NotImplemented)
  }

  /** `to_read_method_and_kwargs`: the read function for the format and its arguments. */
  function ResolveRead(c: Config): (r: Result<(string, Kwargs), ResolveError>)
    ensures r.Ok? <==> FormatOf(c.format).Some?
    ensures r.Err? ==> r.error == NotImplemented
    ensures r.Ok? ==> r.value.0 == "read_" + c.format.s
    ensures r.Ok? ==> r.value.1.Keys <= ReadArgNames(FormatOf(c.format).value)
  {
    if IsCsv(c) then
      Ok((ReadMethod(Csv), CsvReadKwargs(c)))
    else if IsJson(c) then
      Ok((ReadMethod(Json), map[]))
    else if IsNdjson(c) then
      Ok((ReadMethod(Ndjson), map[]))
    else if IsParquet(c) then
      Ok((ReadMethod(Parquet), ParquetReadKwargs(c)))
    else if IsDelta(c) then
      Ok((ReadMethod(Delta), DeltaReadKwargs(c)))
    else
      Err(NotImplemented)
  }

  /** `to_scan_method_and_kwargs`: as reading, except that json cannot be scanned. */
  function ResolveScan(c: Config): (r: Result<(string, Kwargs), ResolveError>)
    ensures r.Ok? <==> FormatOf(c.format).Some? && !IsJson(c)
    ensures r == Err(ScanJsonUnsupported) <==> IsJson(c)
    ensures r.Ok? ==> r.value.0 == "scan_" + c.format.s
    ensures r.Ok? ==> r.value.1.Keys <= ReadArgNames(FormatOf(c.format).value)
  {
    if IsCsv(c) then
      Ok((ScanMethod(Csv), CsvReadKwargs(c)))
    else if IsJson(c) then
      Err(ScanJsonUnsupported)
    else if IsNdjson(c) then
      Ok((ScanMethod(Ndjson), map[]))
    else if IsParquet(c) then
      Ok((ScanMethod(Parquet), ParquetReadKwargs(c)))
    else if IsDelta(c) then
      Ok((ScanMethod(Delta), DeltaReadKwargs(c)))
    else
      Err(NotImplemented)
  }

  // The argument dictionaries of the write methods.

  function CsvWriteArgs(c: Config): seq<(string, Field)> {
    [
    ("include_header", c.csvIncludeHeader),
    ("separator", c.csvDelimiter),
    ("line_terminator", c.csvLineTerminator),
    ("quote_char", c.csvQuoteChar),
    ("datetime_format", c.csvDatetimeFormat),
    ("date_format", c.csvDateFormat),
    ("float_scientific", c.csvFloatScientific),
    ("float_precision", c.csvFloatPrecision),
    ("null_value", c.csvNullValue),
    ("quote_style", c.csvQuoteStyle)]
  }

  function CsvWriteKwargs(c: Config): (kw: Kwargs)
    ensures kw.Keys <= WriteArgNames(Csv)
  {
    OmitUnset(CsvWriteArgs(c))
  }

  function ParquetWriteArgs(c: Config): seq<(string, Field)> {
    [
    ("compression", c.parquetCompression),
    ("compression_level", c.parquetCompressionLevel)]
  }

  function ParquetWriteKwargs(c: Config): (kw: Kwargs)
    ensures kw.Keys <= WriteArgNames(Parquet)
  {
    OmitUnset(ParquetWriteArgs(c))
  }

  function DeltaWriteArgs(c: Config): seq<(string, Field)> {
    [
    ("mode", c.deltaMode),
    ("overwrite_schema", c.deltaOverwriteSchema),
    ("delta_write_options", c.deltaWriteOptions),
    ("delta_merge_options", c.deltaMergeOptions),
    ("storage_options", c.storageOptions)]
  }

  function DeltaWriteKwargs(c: Config): (kw: Kwargs)
    ensures kw.Keys <= WriteArgNames(Delta)
  {
    OmitUnset(DeltaWriteArgs(c))
  }

  // The argument dictionaries that reading and scanning build alike.

  function CsvReadArgs(c: Config): seq<(string, Field)> {
    [
    ("has_header", c.csvIncludeHeader),
    ("separator", c.csvDelimiter),
    ("eol_char", c.csvLineTerminator),
    ("quote_char", c.csvQuoteChar),
    ("storage_options", c.storageOptions)]
  }

  function CsvReadKwargs(c: Config): (kw: Kwargs)
    ensures kw.Keys <= ReadArgNames(Csv)
  {
    OmitUnset(CsvReadArgs(c))
  }

  function ParquetReadArgs(c: Config): seq<(string, Field)> {
    [
    ("use_pyarrow", c.parquetUsePyarrow),
    ("storage_options", c.storageOptions)]
  }

  function ParquetReadKwargs(c: Config): (kw: Kwargs)
    ensures kw.Keys <= ReadArgNames(Parquet)
  {
    OmitUnset(ParquetReadArgs(c))
  }

  function DeltaReadArgs(c: Config): seq<(string, Field)> {
    [("storage_options", c.storageOptions)]
  }

  function DeltaReadKwargs(c: Config): (kw: Kwargs)
    ensures kw.Keys <= ReadArgNames(Delta)
  {
    OmitUnset(DeltaReadArgs(c))
  }

  // --------------------------------------------------------- caller overrides

  /**
   * `kwargs.update(overrides)` when overrides were given: every override wins,
   * every other resolved argument is kept, nothing else appears.
   */
  function Merge(resolved: Kwargs, overrides: Option<Kwargs>): (r: Kwargs)
    ensures overrides.None? ==> r == resolved
    ensures overrides.Some? ==> r.Keys == resolved.Keys + overrides.value.Keys
    ensures overrides.Some? ==> forall k :: k in overrides.value ==> r[k] == overrides.value[k]
    ensures forall k :: k in resolved && (overrides.None? || k !in overrides.value) ==> r[k] == resolved[k]
  {
    match overrides
    case None => resolved
    case Some(o) => resolved + o
  }

  /**
   * `write(df, file_args, write_kwargs)` up to the engine call: the method the
   * DataFrame is asked for and the keyword arguments it receives.
   */
  function Write(c: Config, writeKwargs: Option<Kwargs>): (r: Result<(string, Kwargs), ResolveError>)
    ensures Valid(c) ==> r.Ok?
    ensures r.Err? <==> ResolveWrite(c).Err?
    ensures r.Err? ==> r.error == ResolveWrite(c).error
    ensures r.Ok? ==> r.value.0 == "write_" + c.format.s
    ensures r.Ok? ==> r.value.1 == Merge(ResolveWrite(c).value.1, writeKwargs)
  {
    match ResolveWrite(c)
    case Ok((name, kwargs)) => Ok((name, Merge(kwargs, writeKwargs)))
    case Err(e) => Err(e)
  }

  /** `read(file_args, read_kwargs)` up to the engine call. */
  function Read(c: Config, readKwargs: Option<Kwargs>): (r: Result<(string, Kwargs), ResolveError>)
    ensures Valid(c) ==> r.Ok?
    ensures r.Err? <==> ResolveRead(c).Err?
    ensures r.Err? ==> r.error == ResolveRead(c).error
    ensures r.Ok? ==> r.value.0 == "read_" + c.format.s
    ensures r.Ok? ==> r.value.1 == Merge(ResolveRead(c).value.1, readKwargs)
  {
    match ResolveRead(c)
    case Ok((name, kwargs)) => Ok((name, Merge(kwargs, readKwargs)))
    case Err(e) => Err(e)
  }

  /** `scan(file_args, scan_kwargs)` up to the engine call. */
  function Scan(c: Config, scanKwargs: Option<Kwargs>): (r: Result<(string, Kwargs), ResolveError>)
    ensures Valid(c) ==> (r.Ok? <==> !IsJson(c))
    ensures IsJson(c) ==> r == Err(ScanJsonUnsupported)
    ensures r.Err? <==> ResolveScan(c).Err?
    ensures r.Err? ==> r.error == ResolveScan(c).error
    ensures r.Ok? ==> r.value.0 == "scan_" + c.format.s
    ensures r.Ok? ==> r.value.1 == Merge(ResolveScan(c).value.1, scanKwargs)
  {
    match ResolveScan(c)
    case Ok((name, kwargs)) => Ok((name, Merge(kwargs, scanKwargs)))
    case Err(e) => Err(e)
  }
}
