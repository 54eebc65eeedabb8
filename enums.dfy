/**
 * The string enumerations of polars_writer/writer.py: the formats, the engine
 * method names per access mode, the parquet compression algorithms and the
 * delta write modes. Each enumeration is a closed datatype whose wire form is
 * its lower-case token; `Parse…` is the `Enum[name]` lookup (names and values
 * coincide in every one of these enums).
 */
module Enums {
  import opened Wrappers

  /** FormatEnum. */
  datatype Format = Csv | Json | Ndjson | Parquet | Delta

  const FormatTokens: set<string> := {"csv", "json", "ndjson", "parquet", "delta"}

  function FormatToken(f: Format): (t: string)
    ensures t in FormatTokens
  {
    match f
    case Csv => "csv"
    case Json => "json"
    case Ndjson => "ndjson"
    case Parquet => "parquet"
    case Delta => "delta"
  }

  /** `FormatEnum[s]`: the member named `s`, or None where Python raises KeyError. */
  function ParseFormat(s: string): (r: Option<Format>)
    ensures r.Some? <==> s in FormatTokens
    ensures r.Some? ==> FormatToken(r.value) == s
  {
    if s == "csv" then Some(Csv)
    else if s == "json" then Some(Json)
    else if s == "ndjson" then Some(Ndjson)
    else if s == "parquet" then Some(Parquet)
    else if s == "delta" then Some(Delta)
    else None
  }

  /** ParquetCompressionEnum. */
  datatype Compression = Lz4 | Uncompressed | Snappy | Gzip | Lzo | Brotli | Zstd

  const CompressionTokens: set<string> :=
    {"lz4", "uncompressed", "snappy", "gzip", "lzo", "brotli", "zstd"}

  function CompressionToken(a: Compression): (t: string)
    ensures t in CompressionTokens
  {
    match a
    case Lz4 => "lz4"
    case Uncompressed => "uncompressed"
    case Snappy => "snappy"
    case Gzip => "gzip"
    case Lzo => "lzo"
    case Brotli => "brotli"
    case Zstd => "zstd"
  }

  /** `ParquetCompressionEnum[s]`. */
  function ParseCompression(s: string): (r: Option<Compression>)
    ensures r.Some? <==> s in CompressionTokens
    ensures r.Some? ==> CompressionToken(r.value) == s
  {
    if s == "lz4" then Some(Lz4)
    else if s == "uncompressed" then Some(Uncompressed)
    else if s == "snappy" then Some(Snappy)
    else if s == "gzip" then Some(Gzip)
    else if s == "lzo" then Some(Lzo)
    else if s == "brotli" then Some(Brotli)
    else if s == "zstd" then Some(Zstd)
    else None
  }

  /** DeltaModeEnum. */
  datatype DeltaMode = Error | Append | Overwrite | Ignore | Merge

  const DeltaModeTokens: set<string> := {"error", "append", "overwrite", "ignore", "merge"}

  function DeltaModeToken(m: DeltaMode): (t: string)
    ensures t in DeltaModeTokens
  {
    match m
    case Error => "error"
    case Append => "append"
    case Overwrite => "overwrite"
    case Ignore => "ignore"
    case Merge => "merge"
  }

  /** `DeltaModeEnum[s]`. */
  function ParseDeltaMode(s: string): (r: Option<DeltaMode>)
    ensures r.Some? <==> s in DeltaModeTokens
    ensures r.Some? ==> DeltaModeToken(r.value) == s
  {
    if s == "error" then Some(Error)
    else if s == "append" then Some(Append)
    else if s == "overwrite" then Some(Overwrite)
    else if s == "ignore" then Some(Ignore)
    else if s == "merge" then Some(Merge)
    else None
  }

  /** Every token parses back to the member it came from. */
  lemma TokensRoundTrip(f: Format, a: Compression, m: DeltaMode)
    ensures ParseFormat(FormatToken(f)) == Some(f)
    ensures ParseCompression(CompressionToken(a)) == Some(a)
    ensures ParseDeltaMode(DeltaModeToken(m)) == Some(m)
  {
  }

  /** WriteMethodEnum: the DataFrame method that writes format `f`. */
  function WriteMethod(f: Format): (name: string)
    ensures name == "write_" + FormatToken(f)
  {
    match f
    case Csv => "write_csv"
    case Json => "write_json"
    case Ndjson => "write_ndjson"
    case Parquet => "write_parquet"
    case Delta => "write_delta"
  }

  /** ReadMethodEnum: the module-level function that reads format `f`. */
  function ReadMethod(f: Format): (name: string)
    ensures name == "read_" + FormatToken(f)
  {
    match f
    case Csv => "read_csv"
    case Json => "read_json"
    case Ndjson => "read_ndjson"
    case Parquet => "read_parquet"
    case Delta => "read_delta"
  }

  /** ScanMethodEnum: the module-level function that lazily scans format `f`. */
  function ScanMethod(f: Format): (name: string)
    ensures name == "scan_" + FormatToken(f)
  {
    match f
    case Csv => "scan_csv"
    case Json => "scan_json"
    case Ndjson => "scan_ndjson"
    case Parquet => "scan_parquet"
    case Delta => "scan_delta"
  }
}
