# polars_writer — a Dafny model of the `Writer` configuration

`polars_writer` describes a polars output (or input) as one flat, declarative
record, the `Writer` dataclass. It holds a `format` plus optional fields
grouped by format:

- the csv dialect and value formatting;
- the parquet compression, statistics, row groups and partitioning;
- the delta write mode and options;
- storage options shared by every format.

An optional field that is not set holds the `NOTHING` sentinel. This is
distinct from an explicit `None`. The record does four things:

- **Validates at construction.** `format` must name one of five formats. A
  set `parquet_compression` must name one of seven algorithms. A set
  `delta_mode` must name one of five modes.
- **Answers format predicates.** These are `is_csv` … `is_delta`.
- **Resolves to engine calls.** It resolves itself to a polars function name
  (`write_*`, `read_*`, `scan_*`) and a keyword-argument dictionary. The
  dictionary holds the set fields of the selected format, renamed to the
  engine's argument names. Caller-supplied overrides are then merged over it.
- **Serialises to a dictionary.** `to_dict` lists the set fields under their
  attribute names. `from_dict` rebuilds a record through the validating
  constructor.

All of this logic is pure, so the model is pure too: datatypes, functions
and lemmas.

| file | module | contents |
|---|---|---|
| `wrappers.dfy` | `Wrappers` | `Option`, `Result` |
| `enums.dfy` | `Enums` | the format, compression, delta-mode and method-name enumerations, and their string tokens |
| `kwargs.dfy` | `Kwargs` | `Value`; `Field = Unset \| Val(v)`, the sentinel versus a value; `OmitUnset`, the sentinel-dropping keyword builder |
| `writer.dfy` | `Writer` | `Config`, validation (`Construct`), the format predicates, the three resolvers, `Merge`, and `Write`/`Read`/`Scan` |
| `serialize.dfy` | `Serialize` | `ToDict`, `FromDict` and the round-trip laws |
| `writer_facts.dfy` | `WriterFacts` | what the resolvers and validation promise, and the documented scenarios |

How the Python is represented:

- A Python value is a `Value`:
  - `Null` is an explicit `None`;
  - `Bool`, `Int` and `Str` are the scalars;
  - `Opaque(id)` stands for a dictionary, list or other object that no code
    inspects.
- `format` is a plain `Value` and is always present, since the dataclass
  declares it without a default.
- Each optional attribute is a `Field`, where `Unset` is `NOTHING`.
- A raised exception becomes an `Err` of `ConstructError` or `ResolveError`.
- `__post_init__` (writer.py:151-162) checks a set `parquet_compression` and
  a set `delta_mode` whatever `format` is, so a csv record with a bad
  compression is rejected too. `WriterFacts.CompressionChecked` and
  `WriterFacts.DeltaModeChecked` state this for every valid format.

## Model

| member | source | states |
|---|---|---|
| Enums.FormatToken | polars_writer/writer.py:29-38 | each format's token is one of the five `FormatEnum` values |
| Enums.ParseFormat | polars_writer/writer.py:29-38 | a string parses exactly when it is a `FormatEnum` value, and parses back to the format with that token |
| Enums.CompressionToken | polars_writer/writer.py:77-88 | each compression's token is one of the seven `ParquetCompressionEnum` values |
| Enums.ParseCompression | polars_writer/writer.py:77-88 | a string parses exactly when it is a `ParquetCompressionEnum` value, and parses to the algorithm with that token |
| Enums.DeltaModeToken | polars_writer/writer.py:91-100 | each mode's token is one of the five `DeltaModeEnum` values |
| Enums.ParseDeltaMode | polars_writer/writer.py:91-100 | a string parses exactly when it is a `DeltaModeEnum` value, and parses to the mode with that token |
| Enums.TokensRoundTrip | polars_writer/writer.py:29-100 | parsing a member's token gives that member back, for all three enumerations |
| Enums.WriteMethod | polars_writer/writer.py:41-50 | the write function of a format is `write_` followed by the format's token |
| Enums.ReadMethod | polars_writer/writer.py:53-62 | the read function of a format is `read_` followed by the format's token |
| Enums.ScanMethod | polars_writer/writer.py:65-74 | the scan function of a format is `scan_` followed by the format's token |
| Kwargs.OmitUnset | polars_writer/writer.py:169-195 | `resolve_kwargs` over distinct names: each name is a key iff its field is set, it then maps to that field's value, and no other key appears |
| Writer.WithFormat | polars_writer/writer.py:112-142 | `Writer(format=f)` keeps `f` as its format, and with every other field at its `NOTHING` default it is valid exactly when `f` is one of the five format tokens |
| Writer.Valid | polars_writer/writer.py:145-162 | the invariant `__post_init__` establishes: the format, and the compression and delta mode where set, each parse to a member of their enumeration |
| Writer.FormatOf | polars_writer/writer.py:146-150 | the `FormatEnum[...]` lookup succeeds iff the value is a string among the five format tokens |
| Writer.CompressionOf | polars_writer/writer.py:151-157 | the compression lookup succeeds iff the value is a string among the seven compression tokens |
| Writer.DeltaModeOf | polars_writer/writer.py:158-162 | the delta-mode lookup succeeds iff the value is a string among the five mode tokens |
| Writer.Construct | polars_writer/writer.py:145-162 | construction succeeds iff the record is `Valid` and then returns it unchanged; a bad format fails with `InvalidFormat` naming it; otherwise a set bad compression fails with `InvalidCompression`; otherwise a set bad delta mode fails with `InvalidDeltaMode`; no other error arises |
| Writer.IsCsv | polars_writer/writer.py:197-198 | `is_csv` holds exactly when the format parses to `csv` |
| Writer.IsJson | polars_writer/writer.py:200-201 | `is_json` holds exactly when the format parses to `json` |
| Writer.IsNdjson | polars_writer/writer.py:203-204 | `is_ndjson` holds exactly when the format parses to `ndjson` |
| Writer.IsParquet | polars_writer/writer.py:206-207 | `is_parquet` holds exactly when the format parses to `parquet` |
| Writer.IsDelta | polars_writer/writer.py:209-210 | `is_delta` holds exactly when the format parses to `delta` |
| Writer.ResolveWrite | polars_writer/writer.py:212-258 | resolves iff the format is one of the five tokens, naming `write_<format>`; the keys lie within that format's write-argument names; the fallback raises `NotImplementedError` |
| Writer.ResolveRead | polars_writer/writer.py:294-331 | resolves iff the format is one of the five tokens, naming `read_<format>`; the keys lie within that format's read-argument names; the fallback raises `NotImplementedError` |
| Writer.ResolveScan | polars_writer/writer.py:360-397 | fails with the scan-json error exactly for json; otherwise resolves iff the format is a token, naming `scan_<format>`, with keys within the read-argument names |
| Writer.CsvWriteKwargs | polars_writer/writer.py:218-233 | the csv write arguments use only the ten csv write names |
| Writer.ParquetWriteKwargs | polars_writer/writer.py:238-245 | the parquet write arguments use only `compression` and `compression_level` |
| Writer.DeltaWriteKwargs | polars_writer/writer.py:246-256 | the delta write arguments use only `mode`, `overwrite_schema`, `delta_write_options`, `delta_merge_options` and `storage_options` |
| Writer.CsvReadKwargs | polars_writer/writer.py:300-310 | the csv read arguments use only `has_header`, `separator`, `eol_char`, `quote_char` and `storage_options` |
| Writer.ParquetReadKwargs | polars_writer/writer.py:315-322 | the parquet read arguments use only `use_pyarrow` and `storage_options` |
| Writer.DeltaReadKwargs | polars_writer/writer.py:323-329 | the delta read arguments use only `storage_options` |
| Writer.Merge | polars_writer/writer.py:286-287 | with no overrides the resolved arguments are kept; otherwise the keys are the union, every override key carries its override value, and every other resolved key keeps its value |
| Writer.Write | polars_writer/writer.py:269-292 | writing a constructed record always resolves; errors are the resolver's; the function named is `write_<format>`; the arguments are the resolved ones merged with the overrides |
| Writer.Read | polars_writer/writer.py:342-358 | reading a constructed record always resolves; errors are the resolver's; the function named is `read_<format>`; the arguments are the resolved ones merged with the overrides |
| Writer.Scan | polars_writer/writer.py:408-424 | scanning a constructed record resolves iff it is not json; a json record fails with the scan-json error; errors are the resolver's; the function named is `scan_<format>`; the arguments are the resolved ones merged with the overrides |
| Serialize.Lookup | polars_writer/writer.py:164-166 | reading a keyword of `Writer(**d)`: set iff the key is in `d`, with `d`'s value |
| Serialize.ConfigOf | polars_writer/writer.py:164-166 | `Writer(format=f, **d)` before validation: the format is `f` and each optional field is `d`'s entry under its attribute name, or unset |
| Serialize.FromDict | polars_writer/writer.py:164-166 | an unknown key fails with `UnexpectedKeyword`; a missing `format` fails with `MissingFormat`; a success is a valid record whose format is `d["format"]` |
| Serialize.ToDict | polars_writer/writer.py:168-195 | `to_dict` always holds `format` with the record's format, and holds no key that is not a field name (the rest of its meaning is `Serialize.ToDictHoldsSetFields`) |
| Serialize.BareWriterToDict | polars_writer/writer.py:112-195 | `Writer(format=f).to_dict()` is exactly `{"format": f}` |
| Serialize.ToDictHoldsSetFields | polars_writer/writer.py:168-195 | `to_dict` always holds `format`, holds each optional field under its own name exactly when it is set and with its value, and holds no other key |
| Serialize.FromToDict | polars_writer/writer.py:164-195 | `from_dict(to_dict(w))` re-runs the constructor on exactly the record's fields |
| Serialize.RoundTrip | polars_writer/writer.py:164-195 | for every valid record `w`, `from_dict(to_dict(w))` succeeds with `w`, field for field |
| Serialize.ToFromDict | polars_writer/writer.py:164-195 | a dictionary of (non-sentinel) values that `from_dict` accepts comes back unchanged from `to_dict` |
| WriterFacts.FormatTokensAccepted | polars_writer/writer.py:146-150 | `Writer(format=s)` succeeds iff `s` is one of the five format tokens, and otherwise fails naming `s` |
| WriterFacts.CompressionChecked | polars_writer/writer.py:151-157 | with a valid format and no delta mode, a set compression is accepted iff it is one of the seven tokens, whatever the format; otherwise it fails naming the value |
| WriterFacts.DeltaModeChecked | polars_writer/writer.py:158-162 | with a valid format and no compression, a set delta mode is accepted iff it is one of the five tokens, whatever the format; otherwise it fails naming the value |
| WriterFacts.UnsetNeverRejects | polars_writer/writer.py:145-162 | with a valid format, leaving compression and delta mode unset always constructs; no other field is checked |
| WriterFacts.ExactlyOneFormat | polars_writer/writer.py:197-210 | each `is_*` predicate holds iff the format parses to its format; exactly one holds iff the format is a token, and none holds otherwise |
| WriterFacts.ValidHasOneFormat | polars_writer/writer.py:197-210 | for a constructed record exactly one of the five predicates holds |
| WriterFacts.ValidResolves | polars_writer/writer.py:257-258 | the `NotImplementedError` fallbacks (also at lines 330-331 and 396-397) are unreachable from a constructed record; scanning can fail only with the json error |
| WriterFacts.WriteCsvProjection | polars_writer/writer.py:218-233 | csv writes `write_csv`; `include_header`, `separator`, `line_terminator`, `quote_char` and `quote_style` each appear iff their csv field is set, with its value; no key lies outside the ten csv write names |
| WriterFacts.WriteCsvFormatting | polars_writer/writer.py:218-233 | csv writes `datetime_format`, `date_format`, `float_scientific`, `float_precision` and `null_value` each iff their csv field is set, with its value |
| WriterFacts.WriteJsonNoArguments | polars_writer/writer.py:234-237 | json and ndjson write `write_json` / `write_ndjson` with an empty argument map |
| WriterFacts.WriteParquetProjection | polars_writer/writer.py:238-245 | parquet writes `write_parquet`; `compression` and `compression_level` each appear iff set, with their values, and nothing else appears |
| WriterFacts.WriteDeltaProjection | polars_writer/writer.py:246-256 | delta writes `write_delta`; `mode`, `overwrite_schema`, `delta_write_options`, `delta_merge_options` and `storage_options` each appear iff set, with their values, and nothing else appears |
| WriterFacts.ReadCsvProjection | polars_writer/writer.py:300-310 | csv reads `read_csv`; `has_header`, `separator`, `eol_char`, `quote_char` and `storage_options` each appear iff their field is set, with its value, and nothing else appears |
| WriterFacts.ReadJsonNoArguments | polars_writer/writer.py:311-314 | json and ndjson read `read_json` / `read_ndjson` with an empty argument map |
| WriterFacts.ReadParquetProjection | polars_writer/writer.py:315-322 | parquet reads `read_parquet`; `use_pyarrow` and `storage_options` each appear iff set, with their values, and nothing else appears |
| WriterFacts.ReadDeltaProjection | polars_writer/writer.py:323-329 | delta reads `read_delta`; `storage_options` appears iff set, with its value, and nothing else appears |
| WriterFacts.ScanMatchesRead | polars_writer/writer.py:366-395 | scanning json always fails; any other format scans `scan_<format>` with exactly the arguments reading resolves |
| WriterFacts.WriteInert | polars_writer/writer.py:212-256 | two records with the same format that agree on that format's write fields resolve to the same write call, whatever their other fields hold |
| WriterFacts.ReadScanInert | polars_writer/writer.py:294-395 | two records with the same format that agree on that format's read fields resolve to the same read call and the same scan call |
| WriterFacts.ParquetExtrasNeverForwarded | polars_writer/writer.py:131-137 | changing the parquet statistics, row-group size, data-page size, pyarrow options, partition column(s) or chunk size changes no write, read or scan resolution |
| WriterFacts.WriteOverrideWins | polars_writer/writer.py:284-287 | for a constructed record, every key passed to `write` as an override reaches the engine with the override's value |
| WriterFacts.ConstructionScenarios | tests/test_writer.py:9-20 | an invalid format, an invalid parquet compression and an invalid delta mode each fail with their own error; each of the five formats constructs |
| WriterFacts.CsvDefaultScenario | polars_writer/writer.py:218-233 | a csv record with nothing set writes `write_csv` with no arguments |
| WriterFacts.ParquetCompressionScenario | polars_writer/writer.py:238-245 | parquet with compression `zstd` and level 9 writes `write_parquet` with exactly `{compression: "zstd", compression_level: 9}` |
| WriterFacts.DeltaModeScenario | polars_writer/writer.py:246-256 | delta with mode `append` writes `write_delta` with exactly `{mode: "append"}` |

## Left out

- Engine calls. The model stops at the pair of function name and merged
  arguments. It does not model `getattr(df, method)` or `getattr(pl, method)`,
  nor the call with `*file_args, **kwargs` (writer.py:285, 292, 351, 358, 417,
  424). These are calls into polars that do I/O. `file_args` and the DataFrame
  are therefore not parameters of `Write`, `Read` and `Scan`.
- `func_args.resolve_kwargs` and `NOTHING` are not part of this model. They
  are represented by `Kwargs.OmitUnset` and `Field.Unset`. `OmitUnset`
  requires distinct names, as Python keyword arguments always are.
- Serialize.ToFromDict, Writer.Merge: dictionaries given to `from_dict` or
  as overrides hold `Value`s and never `NOTHING`. In Python an explicit
  `NOTHING` in `from_dict`'s input acts as an absent key, so `to_dict` omits
  it and the dictionary does not come back unchanged. A `NOTHING` among the
  overrides reaches the engine as is (writer.py:287, 353, 419). The model
  states neither case.
- Dictionary-, list- and union-valued fields (`storage_options`,
  `parquet_statistics`, `delta_write_options` and the like) are
  `Value.Opaque`. Nothing in the record inspects their contents.
- Enum member versus `.value` in method names. For parquet and delta the
  source returns the `str` enum member itself (writer.py:240, 248, 317, 325,
  383, 391). The model returns the equal plain string.
- `format is NOTHING`. The record treats `format` as required, as its
  default-less declaration at writer.py:112 does. The branch at writer.py:146
  that skips the format check for the sentinel is therefore not modelled.
- Construct: for an unhashable `format`, `parquet_compression` or `delta_mode`
  (a dictionary or list), the enum lookup raises `TypeError` rather than the
  `ValueError` the constructor converts a `KeyError` into. The model reports
  the corresponding `Invalid*` error for every non-token value. It does not
  distinguish the two exception types.
- `to_kwargs`, `to_read_kwargs` and `to_scan_kwargs` (writer.py:260-267,
  333-340, 399-406) are not separate members. Each returns the second
  component of its resolver, which the model reads as `.value.1`.
- The overrides merged by `read` and `scan` (writer.py:352-353, 418-419) use
  the same `Merge` as `write`. Its contract covers all three.
