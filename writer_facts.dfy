/**
 * What the Writer promises, stated over the model: which configurations
 * construction accepts, that exactly one format predicate holds, how each
 * resolver projects the configuration onto the engine's argument names, that
 * fields of other formats are inert, and how scanning relates to reading.
 */
module WriterFacts {
  import opened Wrappers
  import opened Enums
  import opened Kwargs
  import opened Writer

  // ------------------------------------------------------------ construction

  /** `Writer(format=s)` succeeds exactly for the five format tokens, and otherwise names `s`. */
  lemma FormatTokensAccepted(s: string)
    ensures Construct(WithFormat(Str(s))).Ok? <==> s in FormatTokens
    ensures s !in FormatTokens ==> Construct(WithFormat(Str(s))) == Err(InvalidFormat(Str(s)))
  {
  }

  /**
   * A set compression is checked whatever the format: with a valid format and
   * no delta mode, construction succeeds exactly for the seven tokens.
   */
  lemma CompressionChecked(c: Config, v: Value)
    requires FormatOf(c.format).Some? && c.deltaMode.Unset?
    ensures Construct(c.(parquetCompression := Val(v))).Ok? <==> v.Str? && v.s in CompressionTokens
    ensures !(v.Str? && v.s in CompressionTokens) ==>
      Construct(c.(parquetCompression := Val(v))) == Err(InvalidCompression(v))
  {
  }

  /**
   * A set delta mode is checked whatever the format: with a valid format and
   * no compression, construction succeeds exactly for the five tokens.
   */
  lemma DeltaModeChecked(c: Config, v: Value)
    requires FormatOf(c.format).Some? && c.parquetCompression.Unset?
    ensures Construct(c.(deltaMode := Val(v))).Ok? <==> v.Str? && v.s in DeltaModeTokens
    ensures !(v.Str? && v.s in DeltaModeTokens) ==>
      Construct(c.(deltaMode := Val(v))) == Err(InvalidDeltaMode(v))
  {
  }

  /** Unset compression and delta mode never make construction fail; no other field is checked. */
  lemma UnsetNeverRejects(c: Config)
    requires FormatOf(c.format).Some?
    ensures Construct(c.(parquetCompression := Unset, deltaMode := Unset)).Ok?
  {
  }

  // --------------------------------------------------------------- predicates

  function Count(b: bool): nat { if b then 1 else 0 }

  /** Each predicate recognises one format, and exactly one holds iff the format is a token. */
  lemma ExactlyOneFormat(c: Config)
    ensures IsCsv(c) <==> FormatOf(c.format) == Some(Csv)
    ensures IsJson(c) <==> FormatOf(c.format) == Some(Json)
    ensures IsNdjson(c) <==> FormatOf(c.format) == Some(Ndjson)
    ensures IsParquet(c) <==> FormatOf(c.format) == Some(Parquet)
    ensures IsDelta(c) <==> FormatOf(c.format) == Some(Delta)
    ensures Count(IsCsv(c)) + Count(IsJson(c)) + Count(IsNdjson(c)) + Count(IsParquet(c)) + Count(IsDelta(c))
      == Count(FormatOf(c.format).Some?)
  {
  }

  /** For a constructed Writer exactly one format predicate holds. */
  lemma ValidHasOneFormat(c: Config)
    requires Valid(c)
    ensures Count(IsCsv(c)) + Count(IsJson(c)) + Count(IsNdjson(c)) + Count(IsParquet(c)) + Count(IsDelta(c)) == 1
  {
    ExactlyOneFormat(c);
  }

  // ---------------------------------------------------------------- resolvers

  /** The NotImplementedError fallbacks cannot be reached from a constructed Writer. */
  lemma ValidResolves(c: Config)
    requires Valid(c)
    ensures ResolveWrite(c).Ok? && ResolveRead(c).Ok?
    ensures ResolveScan(c).Ok? || ResolveScan(c) == Err(ScanJsonUnsupported)
  {
  }

  /** Writing csv forwards the dialect fields, renamed, exactly when they are set, and only csv fields. */
  lemma WriteCsvProjection(c: Config)
    requires IsCsv(c)
    ensures ResolveWrite(c).Ok? && ResolveWrite(c).value.0 == "write_csv"
    ensures var kw := ResolveWrite(c).value.1;
      && kw.Keys <= WriteArgNames(Csv)
      && Projects(kw, "include_header", c.csvIncludeHeader)
      && Projects(kw, "separator", c.csvDelimiter)
      && Projects(kw, "line_terminator", c.csvLineTerminator)
      && Projects(kw, "quote_char", c.csvQuoteChar)
      && Projects(kw, "quote_style", c.csvQuoteStyle)
  {
    var args := CsvWriteArgs(c);
    var kw := OmitUnset(args);
    assert ResolveWrite(c) == Ok(("write_csv", kw));
    assert args[0] == ("include_header", c.csvIncludeHeader);
    assert args[1] == ("separator", c.csvDelimiter);
    assert args[2] == ("line_terminator", c.csvLineTerminator);
    assert args[3] == ("quote_char", c.csvQuoteChar);
    assert args[9] == ("quote_style", c.csvQuoteStyle);
    assert Projects(kw, args[0].0, args[0].1);
    assert Projects(kw, args[1].0, args[1].1);
    assert Projects(kw, args[2].0, args[2].1);
    assert Projects(kw, args[3].0, args[3].1);
    assert Projects(kw, args[9].0, args[9].1);
  }

  /** Writing csv forwards the value-formatting fields, renamed, exactly when they are set. */
  lemma WriteCsvFormatting(c: Config)
    requires IsCsv(c)
    ensures ResolveWrite(c).Ok?
    ensures var kw := ResolveWrite(c).value.1;
      && Projects(kw, "datetime_format", c.csvDatetimeFormat)
      && Projects(kw, "date_format", c.csvDateFormat)
      && Projects(kw, "float_scientific", c.csvFloatScientific)
      && Projects(kw, "float_precision", c.csvFloatPrecision)
      && Projects(kw, "null_value", c.csvNullValue)
  {
    var args := CsvWriteArgs(c);
    var kw := OmitUnset(args);
    assert ResolveWrite(c) == Ok(("write_csv", kw));
    assert args[4] == ("datetime_format", c.csvDatetimeFormat);
    assert args[5] == ("date_format", c.csvDateFormat);
    assert args[6] == ("float_scientific", c.csvFloatScientific);
    assert args[7] == ("float_precision", c.csvFloatPrecision);
    assert args[8] == ("null_value", c.csvNullValue);
    assert Projects(kw, args[4].0, args[4].1);
    assert Projects(kw, args[5].0, args[5].1);
    assert Projects(kw, args[6].0, args[6].1);
    assert Projects(kw, args[7].0, args[7].1);
    assert Projects(kw, args[8].0, args[8].1);
  }

  /** Writing json or ndjson passes no arguments at all. */
  lemma WriteJsonNoArguments(c: Config)
    requires IsJson(c) || IsNdjson(c)
    ensures ResolveWrite(c).Ok? && ResolveWrite(c).value.1 == map[]
    ensures ResolveWrite(c).value.0 == if IsJson(c) then "write_json" else "write_ndjson"
  {
  }

  /** Writing parquet forwards the compression and its level, and nothing else. */
  lemma WriteParquetProjection(c: Config)
    requires IsParquet(c)
    ensures ResolveWrite(c).Ok? && ResolveWrite(c).value.0 == "write_parquet"
    ensures var kw := ResolveWrite(c).value.1;
      && kw.Keys <= WriteArgNames(Parquet)
      && Projects(kw, "compression", c.parquetCompression)
      && Projects(kw, "compression_level", c.parquetCompressionLevel)
  {
    var args := ParquetWriteArgs(c);
    var kw := OmitUnset(args);
    assert ResolveWrite(c) == Ok(("write_parquet", kw));
    assert args[0] == ("compression", c.parquetCompression);
    assert args[1] == ("compression_level", c.parquetCompressionLevel);
    assert Projects(kw, args[0].0, args[0].1);
    assert Projects(kw, args[1].0, args[1].1);
  }

  /** Writing delta forwards the four delta fields and the storage options. */
  lemma WriteDeltaProjection(c: Config)
    requires IsDelta(c)
    ensures ResolveWrite(c).Ok? && ResolveWrite(c).value.0 == "write_delta"
    ensures var kw := ResolveWrite(c).value.1;
      && kw.Keys <= WriteArgNames(Delta)
      && Projects(kw, "mode", c.deltaMode)
      && Projects(kw, "overwrite_schema", c.deltaOverwriteSchema)
      && Projects(kw, "delta_write_options", c.deltaWriteOptions)
      && Projects(kw, "delta_merge_options", c.deltaMergeOptions)
      && Projects(kw, "storage_options", c.storageOptions)
  {
    var args := DeltaWriteArgs(c);
    var kw := OmitUnset(args);
    assert ResolveWrite(c) == Ok(("write_delta", kw));
    assert args[0] == ("mode", c.deltaMode);
    assert args[1] == ("overwrite_schema", c.deltaOverwriteSchema);
    assert args[2] == ("delta_write_options", c.deltaWriteOptions);
    assert args[3] == ("delta_merge_options", c.deltaMergeOptions);
    assert args[4] == ("storage_options", c.storageOptions);
    assert Projects(kw, args[0].0, args[0].1);
    assert Projects(kw, args[1].0, args[1].1);
    assert Projects(kw, args[2].0, args[2].1);
    assert Projects(kw, args[3].0, args[3].1);
    assert Projects(kw, args[4].0, args[4].1);
  }

  /** Reading csv forwards the header flag, separator, line terminator, quote and storage options. */
  lemma ReadCsvProjection(c: Config)
    requires IsCsv(c)
    ensures ResolveRead(c).Ok? && ResolveRead(c).value.0 == "read_csv"
    ensures var kw := ResolveRead(c).value.1;
      && kw.Keys <= ReadArgNames(Csv)
      && Projects(kw, "has_header", c.csvIncludeHeader)
      && Projects(kw, "separator", c.csvDelimiter)
      && Projects(kw, "eol_char", c.csvLineTerminator)
      && Projects(kw, "quote_char", c.csvQuoteChar)
      && Projects(kw, "storage_options", c.storageOptions)
  {
    var args := CsvReadArgs(c);
    var kw := OmitUnset(args);
    assert ResolveRead(c) == Ok(("read_csv", kw));
    assert args[0] == ("has_header", c.csvIncludeHeader);
    assert args[1] == ("separator", c.csvDelimiter);
    assert args[2] == ("eol_char", c.csvLineTerminator);
    assert args[3] == ("quote_char", c.csvQuoteChar);
    assert args[4] == ("storage_options", c.storageOptions);
    assert Projects(kw, args[0].0, args[0].1);
    assert Projects(kw, args[1].0, args[1].1);
    assert Projects(kw, args[2].0, args[2].1);
    assert Projects(kw, args[3].0, args[3].1);
    assert Projects(kw, args[4].0, args[4].1);
  }

  /** Reading json or ndjson passes no arguments at all. */
  lemma ReadJsonNoArguments(c: Config)
    requires IsJson(c) || IsNdjson(c)
    ensures ResolveRead(c).Ok? && ResolveRead(c).value.1 == map[]
    ensures ResolveRead(c).value.0 == if IsJson(c) then "read_json" else "read_ndjson"
  {
  }

  /** Reading parquet forwards the pyarrow flag and the storage options. */
  lemma ReadParquetProjection(c: Config)
    requires IsParquet(c)
    ensures ResolveRead(c).Ok? && ResolveRead(c).value.0 == "read_parquet"
    ensures var kw := ResolveRead(c).value.1;
      && kw.Keys <= ReadArgNames(Parquet)
      && Projects(kw, "use_pyarrow", c.parquetUsePyarrow)
      && Projects(kw, "storage_options", c.storageOptions)
  {
    var args := ParquetReadArgs(c);
    var kw := OmitUnset(args);
    assert ResolveRead(c) == Ok(("read_parquet", kw));
    assert args[0] == ("use_pyarrow", c.parquetUsePyarrow);
    assert args[1] == ("storage_options", c.storageOptions);
    assert Projects(kw, args[0].0, args[0].1);
    assert Projects(kw, args[1].0, args[1].1);
  }

  /** Reading delta forwards the storage options only. */
  lemma ReadDeltaProjection(c: Config)
    requires IsDelta(c)
    ensures ResolveRead(c).Ok? && ResolveRead(c).value.0 == "read_delta"
    ensures var kw := ResolveRead(c).value.1;
      && kw.Keys <= ReadArgNames(Delta)
      && Projects(kw, "storage_options", c.storageOptions)
  {
    var args := DeltaReadArgs(c);
    var kw := OmitUnset(args);
    assert ResolveRead(c) == Ok(("read_delta", kw));
    assert args[0] == ("storage_options", c.storageOptions);
    assert Projects(kw, args[0].0, args[0].1);
  }

  /**
   * Scanning is reading made lazy: for every format but json it names the
   * `scan_` function where reading names the `read_` one, with the same
   * arguments; scanning json always fails.
   */
  lemma ScanMatchesRead(c: Config)
    requires FormatOf(c.format).Some?
    ensures IsJson(c) ==> ResolveScan(c) == Err(ScanJsonUnsupported)
    ensures !IsJson(c) ==>
      && ResolveScan(c).Ok? && ResolveRead(c).Ok?
      && ResolveRead(c).value.0 == "read_" + c.format.s
      && ResolveScan(c).value.0 == "scan_" + c.format.s
      && ResolveScan(c).value.1 == ResolveRead(c).value.1
  {
  }

  // ----------------------------------------------------------------- inertness

  /** `a` and `b` select the same format and agree on every field writing that format reads. */
  predicate SameWriteInputs(a: Config, b: Config) {
    && a.format == b.format
    && (IsCsv(a) ==>
          && a.csvIncludeHeader == b.csvIncludeHeader && a.csvDelimiter == b.csvDelimiter
          && a.csvLineTerminator == b.csvLineTerminator && a.csvQuoteChar == b.csvQuoteChar
          && a.csvDatetimeFormat == b.csvDatetimeFormat && a.csvDateFormat == b.csvDateFormat
          && a.csvFloatScientific == b.csvFloatScientific && a.csvFloatPrecision == b.csvFloatPrecision
          && a.csvNullValue == b.csvNullValue && a.csvQuoteStyle == b.csvQuoteStyle)
    && (IsParquet(a) ==>
          a.parquetCompression == b.parquetCompression && a.parquetCompressionLevel == b.parquetCompressionLevel)
    && (IsDelta(a) ==>
          && a.deltaMode == b.deltaMode && a.deltaOverwriteSchema == b.deltaOverwriteSchema
          && a.deltaWriteOptions == b.deltaWriteOptions && a.deltaMergeOptions == b.deltaMergeOptions
          && a.storageOptions == b.storageOptions)
  }

  /** `a` and `b` select the same format and agree on every field reading (or scanning) it reads. */
  predicate SameReadInputs(a: Config, b: Config) {
    && a.format == b.format
    && (IsCsv(a) ==>
          && a.csvIncludeHeader == b.csvIncludeHeader && a.csvDelimiter == b.csvDelimiter
          && a.csvLineTerminator == b.csvLineTerminator && a.csvQuoteChar == b.csvQuoteChar
          && a.storageOptions == b.storageOptions)
    && (IsParquet(a) ==> a.parquetUsePyarrow == b.parquetUsePyarrow && a.storageOptions == b.storageOptions)
    && (IsDelta(a) ==> a.storageOptions == b.storageOptions)
  }

  /** Fields outside the selected format's write group never change what writing resolves to. */
  lemma WriteInert(a: Config, b: Config)
    requires SameWriteInputs(a, b)
    ensures ResolveWrite(a) == ResolveWrite(b)
  {
  }

  /** Fields outside the selected format's read group never change what reading or scanning resolves to. */
  lemma ReadScanInert(a: Config, b: Config)
    requires SameReadInputs(a, b)
    ensures ResolveRead(a) == ResolveRead(b)
    ensures ResolveScan(a) == ResolveScan(b)
  {
  }

  /**
   * The parquet statistics, row-group size, data-page size, pyarrow options,
   * partition column(s) and partition chunk size are carried by the
   * configuration but forwarded by no resolver.
   */
  lemma ParquetExtrasNeverForwarded(c: Config, statistics: Field, rowGroupSize: Field, dataPageSize: Field,
                                    pyarrowOptions: Field, partitionBy: Field, partitionChunkSizeBytes: Field)
    ensures var d := c.(parquetStatistics := statistics, parquetRowGroupSize := rowGroupSize,
                        parquetDataPageSize := dataPageSize, parquetPyarrowOptions := pyarrowOptions,
                        parquetPartitionBy := partitionBy, parquetPartitionChunkSizeBytes := partitionChunkSizeBytes);
      && ResolveWrite(d) == ResolveWrite(c)
      && ResolveRead(d) == ResolveRead(c)
      && ResolveScan(d) == ResolveScan(c)
  {
    var d := c.(parquetStatistics := statistics, parquetRowGroupSize := rowGroupSize,
                parquetDataPageSize := dataPageSize, parquetPyarrowOptions := pyarrowOptions,
                parquetPartitionBy := partitionBy, parquetPartitionChunkSizeBytes := partitionChunkSizeBytes);
    WriteInert(c, d);
    ReadScanInert(c, d);
  }

  // ---------------------------------------------------------------- overrides

  /** An override given to `write` wins over what the configuration resolved. */
  lemma WriteOverrideWins(c: Config, overrides: Kwargs, k: string)
    requires Valid(c) && k in overrides
    ensures Write(c, Some(overrides)).Ok?
    ensures k in Write(c, Some(overrides)).value.1 && Write(c, Some(overrides)).value.1[k] == overrides[k]
  {
  }

  // ---------------------------------------------------------------- scenarios

  /** The construction outcomes the repository's tests exercise. */
  lemma ConstructionScenarios()
    ensures Construct(WithFormat(Str("invalid"))) == Err(InvalidFormat(Str("invalid")))
    ensures Construct(WithFormat(Str("parquet")).(parquetCompression := Val(Str("invalid"))))
      == Err(InvalidCompression(Str("invalid")))
    ensures Construct(WithFormat(Str("delta")).(deltaMode := Val(Str("invalid"))))
      == Err(InvalidDeltaMode(Str("invalid")))
    ensures forall f: Format :: Construct(WithFormat(Str(FormatToken(f)))).Ok?
  {
  }

  /** A csv Writer with no option set writes with no arguments. */
  lemma CsvDefaultScenario()
    ensures ResolveWrite(WithFormat(Str("csv"))) == Ok(("write_csv", map[]))
  {
    var c := WithFormat(Str("csv"));
    WriteCsvProjection(c);
    WriteCsvFormatting(c);
  }

  /** Compression and its level reach `write_parquet` under the engine's names. */
  lemma ParquetCompressionScenario()
    ensures ResolveWrite(WithFormat(Str("parquet")).(parquetCompression := Val(Str("zstd")),
                                                     parquetCompressionLevel := Val(Int(9))))
      == Ok(("write_parquet", map["compression" := Str("zstd"), "compression_level" := Int(9)]))
  {
    var c := WithFormat(Str("parquet")).(parquetCompression := Val(Str("zstd")),
                                         parquetCompressionLevel := Val(Int(9)));
    WriteParquetProjection(c);
    var kw := ResolveWrite(c).value.1;
    var expected := map["compression" := Str("zstd"), "compression_level" := Int(9)];
    assert kw.Keys == expected.Keys;
    assert forall k | k in kw :: kw[k] == expected[k];
    assert kw == expected;
    assert ResolveWrite(c) == Ok(("write_parquet", kw));
  }

  /** The delta write mode reaches `write_delta` as `mode`. */
  lemma DeltaModeScenario()
    ensures ResolveWrite(WithFormat(Str("delta")).(deltaMode := Val(Str("append"))))
      == Ok(("write_delta", map["mode" := Str("append")]))
  {
    WriteDeltaProjection(WithFormat(Str("delta")).(deltaMode := Val(Str("append"))));
  }
}
