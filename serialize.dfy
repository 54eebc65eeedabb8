/**
 * `Writer.to_dict` and `Writer.from_dict`: a Writer as a flat dictionary from
 * dataclass field name to value, holding exactly the fields that are set.
 */
module Serialize {
  import opened Wrappers
  import opened Kwargs
  import opened Writer

  /** The dataclass field names, `format` first. */
  const FieldNames: set<string> := {
    "format", "storage_options",
    "csv_include_header", "csv_delimiter", "csv_line_terminator", "csv_quote_char",
    "csv_datetime_format", "csv_date_format", "csv_float_scientific", "csv_float_precision",
    "csv_null_value", "csv_quote_style",
    "parquet_compression", "parquet_compression_level", "parquet_statistics",
    "parquet_row_group_size", "parquet_data_page_size", "parquet_use_pyarrow",
    "parquet_pyarrow_options", "parquet_partition_by", "parquet_partition_chunk_size_bytes",
    "delta_mode", "delta_overwrite_schema", "delta_write_options", "delta_merge_options"}

  /** The optional field of `c` whose attribute name is `name` (`Unset` for any other name). */
  function FieldNamed(c: Config, name: string): Field {
    match name
    case "storage_options" => c.storageOptions
    case "csv_include_header" => c.csvIncludeHeader
    case "csv_delimiter" => c.csvDelimiter
    case "csv_line_terminator" => c.csvLineTerminator
    case "csv_quote_char" => c.csvQuoteChar
    case "csv_datetime_format" => c.csvDatetimeFormat
    case "csv_date_format" => c.csvDateFormat
    case "csv_float_scientific" => c.csvFloatScientific
    case "csv_float_precision" => c.csvFloatPrecision
    case "csv_null_value" => c.csvNullValue
    case "csv_quote_style" => c.csvQuoteStyle
    case "parquet_compression" => c.parquetCompression
    case "parquet_compression_level" => c.parquetCompressionLevel
    case "parquet_statistics" => c.parquetStatistics
    case "parquet_row_group_size" => c.parquetRowGroupSize
    case "parquet_data_page_size" => c.parquetDataPageSize
    case "parquet_use_pyarrow" => c.parquetUsePyarrow
    case "parquet_pyarrow_options" => c.parquetPyarrowOptions
    case "parquet_partition_by" => c.parquetPartitionBy
    case "parquet_partition_chunk_size_bytes" => c.parquetPartitionChunkSizeBytes
    case "delta_mode" => c.deltaMode
    case "delta_overwrite_schema" => c.deltaOverwriteSchema
    case "delta_write_options" => c.deltaWriteOptions
    case "delta_merge_options" => c.deltaMergeOptions
    case _ => Unset
  }

  /** The field a dictionary supplies under `name`: absent keys stay at `NOTHING`. */
  function Lookup(d: Kwargs, name: string): (f: Field)
    ensures f.Val? <==> name in d
    ensures f.Val? ==> f.v == d[name]
  {
    if name in d then Val(d[name]) else Unset
  }

  /**
   * `to_dict`: `resolve_kwargs` over every field under its own name, so
   * `format` is always present and nothing but field names appears.
   */
  function ToDict(c: Config): (d: Kwargs)
    ensures "format" in d && d["format"] == c.format
    ensures d.Keys <= FieldNames
  {
    map name | name in FieldNames && (name == "format" || FieldNamed(c, name).Val?) ::
      if name == "format" then c.format else FieldNamed(c, name).v
  }

  /**
   * `to_dict` holds `format` under its own name, and each optional field under
   * its own name exactly when it is set, with its value; no other key.
   */
  lemma ToDictHoldsSetFields(c: Config)
    ensures "format" in ToDict(c) && ToDict(c)["format"] == c.format
    ensures forall name :: name in ToDict(c) ==> name in FieldNames
    ensures forall name :: name in FieldNames && name != "format" ==> Lookup(ToDict(c), name) == FieldNamed(c, name)
  {
  }

  /** The dataclass fields of `Writer(format=format, **d)`: each optional field from `d`, or `NOTHING`. */
  function ConfigOf(format: Value, d: Kwargs): (c: Config)
    ensures c.format == format
    ensures forall name :: name in FieldNames && name != "format" ==> FieldNamed(c, name) == Lookup(d, name)
  {
    Config(
      format,
      Lookup(d, "storage_options"),
      Lookup(d, "csv_include_header"),
      Lookup(d, "csv_delimiter"),
      Lookup(d, "csv_line_terminator"),
      Lookup(d, "csv_quote_char"),
      Lookup(d, "csv_datetime_format"),
      Lookup(d, "csv_date_format"),
      Lookup(d, "csv_float_scientific"),
      Lookup(d, "csv_float_precision"),
      Lookup(d, "csv_null_value"),
      Lookup(d, "csv_quote_style"),
      Lookup(d, "parquet_compression"),
      Lookup(d, "parquet_compression_level"),
      Lookup(d, "parquet_statistics"),
      Lookup(d, "parquet_row_group_size"),
      Lookup(d, "parquet_data_page_size"),
      Lookup(d, "parquet_use_pyarrow"),
      Lookup(d, "parquet_pyarrow_options"),
      Lookup(d, "parquet_partition_by"),
      Lookup(d, "parquet_partition_chunk_size_bytes"),
      Lookup(d, "delta_mode"),
      Lookup(d, "delta_overwrite_schema"),
      Lookup(d, "delta_write_options"),
      Lookup(d, "delta_merge_options"))
  }

  /**
   * `from_dict`: `Writer(**d)`. A key that is no field name, or a missing
   * `format`, is refused by the call itself; otherwise the validating
   * constructor decides.
   */
  function FromDict(d: Kwargs): (r: Result<Config, ConstructError>)
    ensures !(d.Keys <= FieldNames) ==> r == Err(UnexpectedKeyword)
    ensures d.Keys <= FieldNames && "format" !in d ==> r == Err(MissingFormat)
    ensures r.Ok? ==> Valid(r.value) && r.value.format == d["format"]
  {
    if !(d.Keys <= FieldNames) then
      Err(UnexpectedKeyword)
    else if "format" !in d then
      Err(MissingFormat)
    else
      Construct(ConfigOf(d["format"], d))
  }

  // `to_dict` keeps each optional field under its own attribute name; a few
  // fields at a time, named after the first.

  lemma {:induction false} ToDictKeepsStorageOptions(c: Config)
    ensures Lookup(ToDict(c), "storage_options") == c.storageOptions
    ensures Lookup(ToDict(c), "csv_include_header") == c.csvIncludeHeader
  {
    assert "storage_options" in FieldNames;
    assert "csv_include_header" in FieldNames;
  }

  lemma {:induction false} ToDictKeepsCsvDelimiter(c: Config)
    ensures Lookup(ToDict(c), "csv_delimiter") == c.csvDelimiter
    ensures Lookup(ToDict(c), "csv_line_terminator") == c.csvLineTerminator
  {
    assert "csv_delimiter" in FieldNames;
    assert "csv_line_terminator" in FieldNames;
  }

  lemma {:induction false} ToDictKeepsCsvQuoteChar(c: Config)
    ensures Lookup(ToDict(c), "csv_quote_char") == c.csvQuoteChar
    ensures Lookup(ToDict(c), "csv_datetime_format") == c.csvDatetimeFormat
  {
    assert "csv_quote_char" in FieldNames;
    assert "csv_datetime_format" in FieldNames;
  }

  lemma {:induction false} ToDictKeepsCsvDateFormat(c: Config)
    ensures Lookup(ToDict(c), "csv_date_format") == c.csvDateFormat
    ensures Lookup(ToDict(c), "csv_float_scientific") == c.csvFloatScientific
  {
    assert "csv_date_format" in FieldNames;
    assert "csv_float_scientific" in FieldNames;
  }

  lemma {:induction false} ToDictKeepsCsvFloatPrecision(c: Config)
    ensures Lookup(ToDict(c), "csv_float_precision") == c.csvFloatPrecision
    ensures Lookup(ToDict(c), "csv_null_value") == c.csvNullValue
  {
    assert "csv_float_precision" in FieldNames;
    assert "csv_null_value" in FieldNames;
  }

  lemma {:induction false} ToDictKeepsCsvQuoteStyle(c: Config)
    ensures Lookup(ToDict(c), "csv_quote_style") == c.csvQuoteStyle
    ensures Lookup(ToDict(c), "parquet_compression") == c.parquetCompression
  {
    assert "csv_quote_style" in FieldNames;
    assert "parquet_compression" in FieldNames;
  }

  lemma {:induction false} ToDictKeepsParquetCompressionLevel(c: Config)
    ensures Lookup(ToDict(c), "parquet_compression_level") == c.parquetCompressionLevel
    ensures Lookup(ToDict(c), "parquet_statistics") == c.parquetStatistics
  {
    assert "parquet_compression_level" in FieldNames;
    assert "parquet_statistics" in FieldNames;
  }

  lemma {:induction false} ToDictKeepsParquetRowGroupSize(c: Config)
    ensures Lookup(ToDict(c), "parquet_row_group_size") == c.parquetRowGroupSize
    ensures Lookup(ToDict(c), "parquet_data_page_size") == c.parquetDataPageSize
  {
    assert "parquet_row_group_size" in FieldNames;
    assert "parquet_data_page_size" in FieldNames;
  }

  lemma {:induction false} ToDictKeepsParquetUsePyarrow(c: Config)
    ensures Lookup(ToDict(c), "parquet_use_pyarrow") == c.parquetUsePyarrow
    ensures Lookup(ToDict(c), "parquet_pyarrow_options") == c.parquetPyarrowOptions
  {
    assert "parquet_use_pyarrow" in FieldNames;
    assert "parquet_pyarrow_options" in FieldNames;
  }

  lemma {:induction false} ToDictKeepsParquetPartitionBy(c: Config)
    ensures Lookup(ToDict(c), "parquet_partition_by") == c.parquetPartitionBy
    ensures Lookup(ToDict(c), "parquet_partition_chunk_size_bytes") == c.parquetPartitionChunkSizeBytes
  {
    assert "parquet_partition_by" in FieldNames;
    assert "parquet_partition_chunk_size_bytes" in FieldNames;
  }

  lemma {:induction false} ToDictKeepsDeltaMode(c: Config)
    ensures Lookup(ToDict(c), "delta_mode") == c.deltaMode
    ensures Lookup(ToDict(c), "delta_overwrite_schema") == c.deltaOverwriteSchema
  {
    assert "delta_mode" in FieldNames;
    assert "delta_overwrite_schema" in FieldNames;
  }

  lemma {:induction false} ToDictKeepsDeltaWriteOptions(c: Config)
    ensures Lookup(ToDict(c), "delta_write_options") == c.deltaWriteOptions
    ensures Lookup(ToDict(c), "delta_merge_options") == c.deltaMergeOptions
  {
    assert "delta_write_options" in FieldNames;
    assert "delta_merge_options" in FieldNames;
  }

  /** No optional field of `Writer(format=f)` is set. */
  lemma BareWriterUnset(f: Value, name: string)
    ensures FieldNamed(WithFormat(f), name) == Unset
  {
  }

  /** `Writer(format=f).to_dict()` is `{"format": f}`: every other field is at its `NOTHING` default. */
  lemma {:induction false} BareWriterToDict(f: Value)
    ensures ToDict(WithFormat(f)) == map["format" := f]
  {
    var c := WithFormat(f);
    forall name | name in ToDict(c)
      ensures name == "format"
    {
      BareWriterUnset(f, name);
    }
  }

  /** `from_dict(to_dict(w))` re-runs the constructor on exactly `w`'s field values. */
  lemma {:induction false} FromToDict(c: Config)
    ensures FromDict(ToDict(c)) == Construct(c)
  {
    ToDictKeepsStorageOptions(c);
    ToDictKeepsCsvDelimiter(c);
    ToDictKeepsCsvQuoteChar(c);
    ToDictKeepsCsvDateFormat(c);
    ToDictKeepsCsvFloatPrecision(c);
    ToDictKeepsCsvQuoteStyle(c);
    ToDictKeepsParquetCompressionLevel(c);
    ToDictKeepsParquetRowGroupSize(c);
    ToDictKeepsParquetUsePyarrow(c);
    ToDictKeepsParquetPartitionBy(c);
    ToDictKeepsDeltaMode(c);
    ToDictKeepsDeltaWriteOptions(c);
  }

  /** The round-trip law: every valid Writer survives `from_dict(to_dict(w))` field for field. */
  lemma RoundTrip(c: Config)
    requires Valid(c)
    ensures FromDict(ToDict(c)) == Ok(c)
  {
    FromToDict(c);
  }

  /** Conversely, a dictionary `from_dict` accepts comes back unchanged from `to_dict`. */
  lemma {:induction false} ToFromDict(d: Kwargs)
    requires FromDict(d).Ok?
    ensures ToDict(FromDict(d).value) == d
  {
    var c := FromDict(d).value;
    var e := ToDict(c);
    ToDictHoldsSetFields(c);
    forall name | name in d || name in e
      ensures name in d && name in e && e[name] == d[name]
    {
      assert name in FieldNames;
      if name != "format" {
        assert Lookup(e, name) == FieldNamed(c, name) == Lookup(d, name);
      }
    }
  }
}
