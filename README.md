# A verified model of the glaredb SQL planner core

This project models the deterministic core of glaredb's SQL session planner (`sqlexec`), written in Dafny, with proofs about that model. It covers three pieces:

- **The session planner's decision logic.** This is how SQL types map to Arrow types, including decimal validation. It also covers:
  - how object names become table and schema references;
  - the SHOW rewrite;
  - the shape checks on ALTER TABLE, DROP, CREATE VIEW, temporary tables, INSERT, DELETE and UPDATE;
  - the column reconciliation of `CREATE TABLE … AS`;
  - every place where a plan record is built from the statement's options bag: credentials, COPY TO destination and format, object-store bucket and location, and file type and compression inference;
  - the in-place merge of stored credentials into storage options.
- **The AST preprocessor.** The `CastOIDReplacer` and `EscapedStringToDoubleQuoted` visitors rewrite expressions in post-order and in place, and `preprocess` turns a visitor break into an error.
- **The CreateTable logical-plan extension node.** This covers its node capabilities, its decoding from the wire record with the required-field and source checks, and the tagged record its encoder builds.

The entities that the planner mutates are classes:
- the options bag `StatementOptions`, whose `remove_*` calls consume entries;
- the credential-merge target `StorageOptions`;
- the byte buffer the extension encoder appends to.

The statement's expressions are an `array` rewritten in place. Each method over these is proved against a pure function of the old state. The properties of those functions are lemmas.

Collaborators from crates that are not part of this model are parameters. This applies to the identifier normalizer and validators, the conversion of object names to table references, catalog and credential lookup, the not-a-table error of `try_into_table_entry`, and URL parsing. It also applies to the file-type and compression parsers, the typed option parsers, the COPY TO support checks, and the wire conversions of table names, schemas and plans. Their behaviour is never assumed beyond their signatures.

Modules:
- `Wrappers`, `Strings`, `Ast`, `Arrow`, `Names`, `Errors`: shared vocabulary.
- `SqlTypes`: type mapping and decimal validation.
- `Options`: the options bag.
- `Credentials`: CREATE CREDENTIALS and the credential merge.
- `ObjectStore`: bucket and location splitting, and file type and compression inference.
- `CopyTo`: COPY TO destination and format.
- `Statements`: statement shape checks.
- `CreateTableAs`: CREATE TABLE column reconciliation.
- `Preprocess`: the AST preprocessor.
- `CreateTableNode`: the logical-plan extension node.

## Model

| member | source | states |
|---|---|---|
| Strings.Lower | crates/sqlexec/src/planner/preprocess.rs:61 | lower-casing keeps the length and maps each character by its ASCII lower case |
| Strings.NatToString | crates/sqlexec/src/planner/preprocess.rs:66 | the rendering of an oid is a non-empty string of digits with no leading zero unless the value is 0 |
| Strings.NatToStringRoundTrip | crates/sqlexec/src/planner/preprocess.rs:66 | reading the rendered digits back gives the number rendered |
| Strings.NatToStringInjective | crates/sqlexec/src/planner/preprocess.rs:66 | distinct oids render as distinct number literals |
| SqlTypes.AsU8 | crates/sqlexec/src/planner/session_planner.rs:2546-2547 | `as u8` keeps the low byte and keeps values below 256 |
| SqlTypes.AsI8 | crates/sqlexec/src/planner/session_planner.rs:2546 | `as i8` gives the low byte as two's complement and keeps values below 128 |
| SqlTypes.MakeDecimalTypeAsWritten | crates/sqlexec/src/planner/session_planner.rs:2543-2562 | no arguments give (38, 10); scale without precision fails; with a precision p and scale s (default 0) cast to u8 and i8, success exactly when 0 < p <= 38 and abs(s) <= p, giving Decimal128(p, s), else the range error naming the cast values |
| SqlTypes.MakeDecimalType | crates/sqlexec/src/planner/session_planner.rs:2543-2562 | scale alone fails; no arguments give (38, 10); with a precision, success exactly when 0 < p <= 38 and scale (default 0) <= p, with those exact values |
| SqlTypes.AsWrittenAcceptsOversizedPrecision | crates/sqlexec/src/planner/session_planner.rs:2546 | DECIMAL(294, 2) is accepted as Decimal128(38, 2) as written and rejected by the corrected version |
| SqlTypes.AsWrittenAcceptsOversizedScale | crates/sqlexec/src/planner/session_planner.rs:2546 | DECIMAL(10, 255) is accepted with scale -1 as written and rejected by the corrected version |
| SqlTypes.AsWrittenAgreesOnSmallValues | crates/sqlexec/src/planner/session_planner.rs:2545-2562 | where the casts do not truncate, the two versions give the same result |
| SqlTypes.ConvertSimpleDataType | crates/sqlexec/src/planner/session_planner.rs:2321-2422 | every success is a scalar Arrow type of the mapping, decimals included as the truncating check lets them through (negative scales too); an array type is never simple |
| SqlTypes.ConvertNonDecimalType | crates/sqlexec/src/planner/session_planner.rs:2321-2422 | the arms other than NUMERIC and DECIMAL give only scalar Arrow types of the mapping and refuse arrays |
| SqlTypes.ConvertDataType | crates/sqlexec/src/planner/session_planner.rs:2302-2316 | results are scalar types or lists of them; an array with no element type is refused with its message; a non-array type converts as a simple type |
| SqlTypes.ConvertDataTypeOnto | crates/sqlexec/src/planner/session_planner.rs:2302-2422 | every Arrow type of the image, including decimals with a negative scale, is produced by some SQL type |
| SqlTypes.SimpleOnto | crates/sqlexec/src/planner/session_planner.rs:2321-2422 | every scalar Arrow type of the mapping is produced by some SQL type |
| SqlTypes.DecimalOnto | crates/sqlexec/src/planner/session_planner.rs:2370-2378 | every Decimal128(p, s) with 0 < p <= 38 and abs(s) <= p comes from DECIMAL(p, s'), where s' is the byte whose `as i8` is s |
| SqlTypes.NonDecimalOnto | crates/sqlexec/src/planner/session_planner.rs:2321-2422 | every non-decimal scalar Arrow type of the mapping is produced by some SQL type |
| SqlTypes.DecimalOfCorrected | crates/sqlexec/src/planner/session_planner.rs:2370-2378 | the NUMERIC/DECIMAL arm with the corrected check gives only 0 <= s <= p <= 38, and accepts (p, s) exactly when 0 < p <= 38 and s <= p |
| SqlTypes.DecimalArmAgreesOnSmallValues | crates/sqlexec/src/planner/session_planner.rs:2370-2378 | the mapping and the corrected arm agree on every NUMERIC/DECIMAL whose precision and scale survive the casts |
| SqlTypes.NumericIsDecimalOf | crates/sqlexec/src/planner/session_planner.rs:2369-2378 | NUMERIC takes the decimal arm |
| SqlTypes.DecimalIsDecimalOf | crates/sqlexec/src/planner/session_planner.rs:2369-2378 | DECIMAL takes the decimal arm |
| SqlTypes.MappingAcceptsOversizedPrecision | crates/sqlexec/src/planner/session_planner.rs:2370-2378 | the mapping turns NUMERIC(294, 2) into Decimal128(38, 2), which the corrected arm refuses |
| SqlTypes.NoNestedArrays | crates/sqlexec/src/planner/session_planner.rs:2304-2306 | an array of arrays is refused in both bracket styles |
| Options.Parsed | crates/sqlexec/src/planner/session_planner.rs:2058 | an option value parses to the typed value, or fails with a parse error naming the key and the raw text |
| Options.OptionalValue | crates/sqlexec/src/planner/session_planner.rs:2058 | an absent key gives None; a present key that parses gives Some of its parsed value; one that does not is the parse error naming the key and raw text |
| Options.RequiredValue | crates/sqlexec/src/planner/session_planner.rs:1904 | an absent key is a missing-option error; success exactly when the key is present and parses |
| Options.RequiredOrValue | crates/sqlexec/src/planner/session_planner.rs:315 | the statement's option wins over the fallback; with neither, the option is missing |
| Options.OptionalOrValue | crates/sqlexec/src/planner/session_planner.rs:727 | the statement's option wins; otherwise the fallback is returned as it is |
| Options.RequiredStringPresent | crates/sqlexec/src/planner/session_planner.rs:1904 | a required string option is its raw value when present and missing otherwise |
| Options.NoFallbackAgrees | crates/sqlexec/src/planner/session_planner.rs:315 | with no fallback, the `_or` variants behave as the plain ones |
| Options.ConsumedKeyIsGone | crates/sqlexec/src/planner/session_planner.rs:1904 | after a key is consumed, a second request finds it missing or absent |
| Options.StatementOptions.RemoveOptional | crates/sqlexec/src/planner/session_planner.rs:2058 | consumes the key and returns the optional reading of the old bag |
| Options.StatementOptions.RemoveRequired | crates/sqlexec/src/planner/session_planner.rs:1904 | consumes the key and returns the required reading of the old bag |
| Options.StatementOptions.RemoveRequiredOr | crates/sqlexec/src/planner/session_planner.rs:315 | consumes the key and returns the required-or-fallback reading of the old bag |
| Options.StatementOptions.RemoveOptionalOr | crates/sqlexec/src/planner/session_planner.rs:1962 | consumes the key and returns the optional-or-fallback reading of the old bag |
| Credentials.CredentialsFor | crates/sqlexec/src/planner/session_planner.rs:1108-1149 | an unknown provider is refused; success exactly when the provider's required keys are present (and, for debug, the table type parses); each provider's fields are the option values |
| Credentials.PlanCreateCredentials | crates/sqlexec/src/planner/session_planner.rs:1103-1160 | the plan carries the normalized name, the options, the comment and or-replace; it consumes exactly the provider's keys on success and never adds or changes entries |
| Credentials.GetCredentialsOpts | crates/sqlexec/src/planner/session_planner.rs:2125-2145 | no name gives no options; a name that does not resolve is an invalid-credentials error "does not exist" |
| Credentials.CredentialEntriesCount | crates/sqlexec/src/planner/session_planner.rs:2505-2539 | the merge writes no key for debug and OpenAI, one for GCP, and two for AWS and Azure |
| Credentials.StorageOptionsWithCredentials | crates/sqlexec/src/planner/session_planner.rs:2505-2539 | the new map is the old one overwritten by the provider's entries; every other key keeps its value; debug and OpenAI leave it unchanged |
| ObjectStore.BucketAndLocation | crates/sqlexec/src/planner/session_planner.rs:2166-2192 | a missing location is an error; a URL of the wrong type is an error; a matching URL gives host and path, and a missing host is an error; a non-URL location needs the bucket option and is kept verbatim |
| ObjectStore.UrlIgnoresBucketOption | crates/sqlexec/src/planner/session_planner.rs:2172-2186 | when the location is a URL, the bucket option has no effect |
| ObjectStore.GetObjStoreBucketAndLocation | crates/sqlexec/src/planner/session_planner.rs:2166-2192 | returns the specified split and consumes the location key, plus the bucket key only for a non-URL location |
| ObjectStore.ObjectFileType | crates/sqlexec/src/planner/session_planner.rs:2240-2245 | an object's file type is the one parsed from its path, or "bson" for a `.bson` extension, or none |
| ObjectStore.LastResolvedIsLast | crates/sqlexec/src/planner/session_planner.rs:2238-2247 | no object resolves exactly when the result is none; otherwise the result is the type of the last object that resolves |
| ObjectStore.ResolveFileType | crates/sqlexec/src/planner/session_planner.rs:2238-2247 | the overwriting loop computes the last resolved file type |
| ObjectStore.InferredCompression | crates/sqlexec/src/planner/session_planner.rs:2222-2233 | an explicit compression option wins; otherwise the first object's extension is parsed, and an unparseable extension gives none |
| ObjectStore.InferredFileType | crates/sqlexec/src/planner/session_planner.rs:2235-2256 | an explicit file type wins; otherwise the last resolved type, and none is an error |
| ObjectStore.FileTypeAndCompression | crates/sqlexec/src/planner/session_planner.rs:2197-2259 | a listing failure and an empty listing are external-table errors; a success pairs the inferred file type with the inferred compression |
| ObjectStore.FileTypeAndCompressionOutcome | crates/sqlexec/src/planner/session_planner.rs:2222-2259 | for a non-empty listing, a failed compression inference is the result, then a failed file type inference is the unresolved-file-type error, and otherwise the result pairs the two inferences |
| ObjectStore.ValidateAndGetFileTypeAndCompression | crates/sqlexec/src/planner/session_planner.rs:2197-2259 | returns the specified pair and consumes exactly the keys the specification reads |
| CopyTo.Extension | crates/sqlexec/src/planner/session_planner.rs:2039-2044 | an extension has no dot or slash and is the suffix after the last dot of the file name; there is none exactly when there is no file name, the name has no dot, or its only dot is the leading one |
| CopyTo.ExtensionOfCsvFile | crates/sqlexec/src/planner/session_planner.rs:2039-2044 | "out/data.CSV" has extension "CSV" |
| CopyTo.NoExtensionOfHiddenFile | crates/sqlexec/src/planner/session_planner.rs:2039-2044 | a dot-file such as ".hidden" has no extension |
| CopyTo.TargetFor | crates/sqlexec/src/planner/session_planner.rs:1897-1924 | a keyword destination consumes `location` (URL locations give their path); any other destination is parsed as a URL whose type picks the destination, and HTTP is an invalid scheme |
| CopyTo.BucketFor | crates/sqlexec/src/planner/session_planner.rs:1936-1949 | with a URL the bucket is its host and the bag is untouched; otherwise the bucket option is required and consumed |
| CopyTo.DestinationFor | crates/sqlexec/src/planner/session_planner.rs:1951-2037 | local needs nothing; mismatched GCS or S3 credentials panic and mismatched Azure credentials are an error; otherwise the provider's destination function decides; options are only consumed, never altered; for GCS and S3 each key option wins over the stored credential; Azure takes account and key from stored credentials alone when there are some, else from the two required options; bucket and container are those of `get_bucket` |
| CopyTo.GcsDestination | crates/sqlexec/src/planner/session_planner.rs:1955-1970 | succeeds exactly when the bucket does; the key is the option, else the stored key; consumes the key option and the bucket option unless a URL names the bucket |
| CopyTo.S3Destination | crates/sqlexec/src/planner/session_planner.rs:1972-2000 | succeeds exactly when region is given and the bucket resolves; a missing region is that error; key id and secret are each the option, else the stored value; consumes the three keys and, past the region, the bucket option |
| CopyTo.AzureDestination | crates/sqlexec/src/planner/session_planner.rs:2001-2031 | succeeds exactly when there are stored credentials or both key options, and the container resolves; a missing account name or access key is that error, in that order; stored credentials are used without reading the options |
| CopyTo.BucketKeys | crates/sqlexec/src/planner/session_planner.rs:1936-1949 | the bucket key is consumed exactly when there is no URL |
| CopyTo.GivenOr | crates/sqlexec/src/planner/session_planner.rs:1962 | a given option wins over the fallback |
| CopyTo.FormatName | crates/sqlexec/src/planner/session_planner.rs:2046-2052 | an explicit format wins; otherwise the lower-cased location extension, if any |
| CopyTo.CharAsU8 | crates/sqlexec/src/planner/session_planner.rs:2061 | `delim as u8` keeps the low byte |
| CopyTo.ParsedOr | crates/sqlexec/src/planner/session_planner.rs:2057-2073 | a given option that parses is its value, an absent one takes the default |
| CopyTo.CsvFormat | crates/sqlexec/src/planner/session_planner.rs:2057-2064 | success exactly when the delimiter and the header parse (or are absent); the format is the delimiter's low byte (',' by default) and the header (true by default); a malformed delimiter is the error first, consuming only it, then a malformed header; both keys are consumed |
| CopyTo.ParquetFormat | crates/sqlexec/src/planner/session_planner.rs:2065-2070 | success exactly when the row group size parses or is absent, giving it or 122880; a malformed one is its parse error; the key is consumed |
| CopyTo.JsonFormat | crates/sqlexec/src/planner/session_planner.rs:2071-2074 | success exactly when the array flag parses or is absent, giving it or false; a malformed one is its parse error; the key is consumed |
| CopyTo.FormatFor | crates/sqlexec/src/planner/session_planner.rs:2046-2090 | no name gives the default and consumes nothing; an unknown name is refused and consumes nothing; csv, parquet, json and lance read their options as their own rows state; bson and delta always succeed and consume nothing |
| CopyTo.LanceFormat | crates/sqlexec/src/planner/session_planner.rs:2078-2085 | success exactly when every given size parses; the four sizes are the parsed values or None; the error is the first malformed size's; exactly the four keys are consumed |
| CopyTo.GivenSize | crates/sqlexec/src/planner/session_planner.rs:2078-2085 | a size option is its parsed value when given and None when absent |
| CopyTo.FormatDefaults | crates/sqlexec/src/planner/session_planner.rs:2057-2085 | for any options bag, a format whose own options are absent takes its defaults (csv is ',' with header, parquet 122880 rows per group, json not an array, lance no limits) and leaves the bag as it was |
| CopyTo.CopyToFor | crates/sqlexec/src/planner/session_planner.rs:1883-2103 | success exactly when target, credentials, their support check, destination, format and format support all succeed; the plan is that destination and the format read from the options the destination left, which are what remains; a credentials-support failure is an invalid COPY TO error and a format-support failure an invalid external table error; an explicit format is kept, otherwise the lower-cased extension or the default |
| CopyTo.ResolveCopyToTarget | crates/sqlexec/src/planner/session_planner.rs:1897-1924 | result and remaining bag are those of the target specification |
| CopyTo.GetBucket | crates/sqlexec/src/planner/session_planner.rs:1936-1949 | result and remaining bag are those of the bucket specification |
| CopyTo.PlanDestination | crates/sqlexec/src/planner/session_planner.rs:1951-2037 | result and remaining bag are those of the destination specification |
| CopyTo.PlanFormat | crates/sqlexec/src/planner/session_planner.rs:2046-2090 | result and remaining bag are those of the format specification |
| CopyTo.PlanCopyTo | crates/sqlexec/src/planner/session_planner.rs:1883-2103 | result and remaining bag are those of the whole COPY TO specification |
| Statements.ObjectNameToSchemaRef | crates/sqlexec/src/planner/session_planner.rs:2284-2295 | a bare name is a schema, a two-part name is catalog and schema, a three-part name is refused; reading the schema back as a table reference gives the original |
| Statements.SchemaRefAsTableRefInjective | crates/sqlexec/src/planner/session_planner.rs:2286-2291 | distinct schema references come from distinct table references |
| Statements.IsShowTransactionIsolationLevel | crates/sqlexec/src/planner/session_planner.rs:2567-2570 | true exactly for the three words "transaction", "isolation", "level" in order |
| Statements.Normalized | crates/sqlexec/src/planner/session_planner.rs:1598 | one normalized name per identifier, in order |
| Statements.PlanShowVariable | crates/sqlexec/src/planner/session_planner.rs:1596-1613 | the three-word form shows `transaction_isolation`; otherwise one name is shown as normalized, and any other count is an error |
| Statements.ShowVariableAccepts | crates/sqlexec/src/planner/session_planner.rs:1598-1612 | SHOW succeeds exactly for one name or the three-word form |
| Statements.PlanAlterTable | crates/sqlexec/src/planner/session_planner.rs:1473-1514 | more or fewer than one operation is unsupported; a non-rename is refused; success exactly when the name validates, converts and resolves and the new name is one valid identifier; a multi-part new name is the invalid ALTER error; a plan renames the resolved table to the normalized new name |
| Statements.PlanDropReferences | crates/sqlexec/src/planner/session_planner.rs:1517-1577 | all names resolve exactly when the plan succeeds, with one reference per name in order; otherwise the error is the first failing name's |
| Statements.PlanCreateView | crates/sqlexec/src/planner/session_planner.rs:1344-1396 | view options and a body other than SELECT or VALUES are refused with their errors; success exactly when the name validates, converts and resolves, and aliases, if given, match the output field count (the exact error otherwise); the plan keeps the resolved view, SQL text, normalized aliases and or-replace |
| Statements.TempTableReference | crates/sqlexec/src/planner/session_planner.rs:1308-1321 | only a bare name is accepted, and it is placed in the default catalog's session schema |
| Statements.AccessModeOf | crates/sqlexec/src/planner/session_planner.rs:2147-2162 | an entry needing external resolution and a database entry have the database's access mode, a table has its own, and any other entry has none |
| Statements.TryIntoTableEntry | crates/sqlexec/src/planner/session_planner.rs:1669-1671 | a table entry converts, to its own table; any other entry is the session's not-a-table error for that entry |
| Statements.PlanColumns | crates/sqlexec/src/planner/session_planner.rs:1420-1426 | succeeds exactly when every column is valid, giving the normalized names; otherwise the error is that of the first invalid column |
| Statements.PlanInsert | crates/sqlexec/src/planner/session_planner.rs:1398-1441 | no source is an error; success exactly when the name, columns and source plan succeed and the target resolves with read-write access; the plan carries the target and the normalized columns; a target without write access is refused with its reference |
| Statements.InsertDefaultsToReadOnly | crates/sqlexec/src/planner/session_planner.rs:1433-1441 | an entry with no access mode is treated as read-only and the insert is refused |
| Statements.PlanDelete | crates/sqlexec/src/planner/session_planner.rs:1619-1682 | zero FROM tables and several are distinct errors; a join is unsupported; success exactly when the target table validates, converts, has a schema, and resolves to a non-external table entry; failures are those of the step that fails |
| Statements.TargetTable | crates/sqlexec/src/planner/session_planner.rs:1645-1651 | the target name validates and converts and its table source has a schema, with the first failing step's error |
| Statements.WritableEntry | crates/sqlexec/src/planner/session_planner.rs:1668-1676 | the catalog entry must be a table that is not external; a failed lookup gives its error, a non-table the not-a-table error, and an external table the unsupported error for the statement |
| Statements.PlanUpdateAssignments | crates/sqlexec/src/planner/session_planner.rs:1711-1723 | succeeds exactly when every target is a single identifier, keeping each column and value in order |
| Statements.PlanUpdate | crates/sqlexec/src/planner/session_planner.rs:1688-1750 | a join is unsupported; success exactly when the target table validates, converts and has a schema, every assignment is unqualified, and the table resolves to a non-external entry; the plan carries that entry and one (column, value) update per assignment in order; a qualified target or a failed step gives its error |
| CreateTableAs.RetypedField | crates/sqlexec/src/planner/session_planner.rs:1265-1274 | a field takes the column's normalized name and converted type when both are valid |
| CreateTableAs.ReconcileCreateTableAs | crates/sqlexec/src/planner/session_planner.rs:1262-1276 | one field per query field; field i is retyped by column i when there is one and unchanged otherwise; surplus columns are ignored; a failure is the error of the first failing column, every earlier one having succeeded |
| CreateTableAs.Projection | crates/sqlexec/src/planner/session_planner.rs:1279-1289 | one cast-and-alias per field, reading the query's column |
| CreateTableAs.ProjectionNamesColumns | crates/sqlexec/src/planner/session_planner.rs:1262-1289 | projection i reads query column i and is aliased to the explicit column's name when there is one, and to the query field's name otherwise |
| CreateTableAs.ColumnField | crates/sqlexec/src/planner/session_planner.rs:1299-1302 | a column becomes a nullable field with its normalized name and converted type |
| CreateTableAs.CreateTableColumns | crates/sqlexec/src/planner/session_planner.rs:1297-1305 | one field per column in order when all are valid; otherwise the first failing column's error |
| Preprocess.FirstOidIsFirst | crates/sqlexec/src/planner/preprocess.rs:41-51 | no oid exactly when no schema of the search path resolves the relation; otherwise the oid comes from the first schema that does |
| Preprocess.FindOid | crates/sqlexec/src/planner/preprocess.rs:41-51 | the early-return loop computes the first oid on the search path |
| Preprocess.PostVisitCastOid | crates/sqlexec/src/planner/preprocess.rs:53-89 | non-casts and casts to other types are kept; a cast of a string literal to regclass or oid becomes the oid literal or a missing-relation error; a cast of anything else breaks with the error picked by the type |
| Preprocess.PostVisitEscaped | crates/sqlexec/src/planner/preprocess.rs:101-106 | an escaped string literal becomes a double-quoted one with the same contents; anything else is unchanged |
| Preprocess.VisitExpr | crates/sqlexec/src/planner/preprocess.rs:21-29 | the recursive traversal computes the post-order rewrite |
| Preprocess.PostVisitStep | crates/sqlexec/src/planner/preprocess.rs:40-106 | one post-visit step, using the search-path loop, computes the visitor's rewrite of a node |
| Preprocess.ReplaceOidsKeepsStrings | crates/sqlexec/src/planner/preprocess.rs:64-66 | replacing oids neither creates nor removes a single-quoted string literal at the root, and leaves literals unchanged |
| Preprocess.CastOidWalk | crates/sqlexec/src/planner/preprocess.rs:53-88 | the oid walk continues exactly when every oid cast resolves, and then its result is the replaced expression |
| Preprocess.EscapedWalk | crates/sqlexec/src/planner/preprocess.rs:101-106 | the escaped-string walk never breaks and yields the unescaped expression |
| Preprocess.UnescapeIdempotent | crates/sqlexec/src/planner/preprocess.rs:101-106 | unescaping twice is the same as unescaping once |
| Preprocess.OidLiteralDenotesOid | crates/sqlexec/src/planner/preprocess.rs:66 | the replacement literal is a non-empty, non-long number whose digits denote the oid |
| Preprocess.Preprocess | crates/sqlexec/src/planner/preprocess.rs:21-29 | Ok exactly when no walk breaks, with every expression rewritten; otherwise the error of the first break, with that expression partly rewritten and later ones untouched |
| Preprocess.PlanAstPreprocess | crates/sqlexec/src/planner/session_planner.rs:236-240 | succeeds exactly when every oid cast resolves, and then every expression has its oids replaced and its escaped strings unescaped; otherwise the error is the oid walk's break on the first expression whose casts do not all resolve, earlier expressions have their oids replaced, that one is as its walk left it, and later ones are untouched |
| CreateTableNode.CreateTable.Name | crates/sqlexec/src/planner/logical_plan/create_table.rs:44-46 | the name is "CreateTable" |
| CreateTableNode.CreateTable.Inputs | crates/sqlexec/src/planner/logical_plan/create_table.rs:48-53 | one input, the source, when there is a source, and none otherwise |
| CreateTableNode.CreateTable.Expressions | crates/sqlexec/src/planner/logical_plan/create_table.rs:59-61 | there are no expressions |
| CreateTableNode.CreateTable.FmtForExplain | crates/sqlexec/src/planner/logical_plan/create_table.rs:63-65 | EXPLAIN shows the node's name |
| CreateTableNode.CreateTable.FromTemplate | crates/sqlexec/src/planner/logical_plan/create_table.rs:67-73 | the expressions and inputs given are ignored and the node is returned equal |
| CreateTableNode.Decode | crates/sqlexec/src/planner/logical_plan/create_table.rs:14-40 | a missing table name or schema is a required-field error; a name or schema that does not convert gives its conversion error; a source is unsupported; success exactly when both convert and there is no source, copying the flag and leaving no source |
| CreateTableNode.TryDecodeExtension | crates/sqlexec/src/planner/logical_plan/create_table.rs:79-86 | a CreateTable node is returned as it is; any other node is the unsupported-extension error |
| CreateTableNode.EncodeRecord | crates/sqlexec/src/planner/logical_plan/create_table.rs:88-111 | the record is tagged CreateTable and carries the converted name and schema (dropped when they do not convert), the flag, and, exactly when the node has one, the encoded source plan; a source that does not encode panics |
| CreateTableNode.TryEncode | crates/sqlexec/src/planner/logical_plan/create_table.rs:88-118 | the encoding of the record is appended to the buffer; on any error the buffer is unchanged |
| CreateTableNode.EncodeDecodeRoundTrip | crates/sqlexec/src/planner/logical_plan/create_table.rs:88-118 | a source-less node whose parts convert both ways decodes back to itself |
| CreateTableNode.SourceDoesNotRoundTrip | crates/sqlexec/src/planner/logical_plan/create_table.rs:28-32 | a node with a source encodes, but its record is refused on decoding |
| CreateTableNode.UnconvertibleNameIsReportedMissing | crates/sqlexec/src/planner/logical_plan/create_table.rs:101 | a table name that does not convert is dropped and reported missing on decoding |
| CreateTableNode.DecodedHasNoInputs | crates/sqlexec/src/planner/logical_plan/create_table.rs:34-39 | a decoded node has no inputs |

## Left out

- Planning of queries, expressions and sources belongs to the query engine and is an input: `query_to_plan`, `sql_to_expr`, `insert_to_source_plan` and the view body's output field count.
- Live validation and I/O are inputs or left out: access checks, listing objects (the listing result is an input), connecting to tables, SSH key generation, tunnels, and the `async` machinery.
- These collaborators are parameters, and their behaviour is not modelled: the identifier normalizer and validators, `object_name_to_table_reference`, catalog and credential lookup, the not-a-table error of `try_into_table_entry`, the table source lookup with its schema conversion (`get_table_source`, `to_dfschema`), `DatasourceUrl::try_new` and its Display, `file_type_from_path`, the compression parsers, the typed option parsers, `validate_copyto_*`, `CopyToFormatOptions::default`, the wire conversions and prost encoding.
- `StatementOptions` is not in the source shown. Its `remove_*` operations are modelled as consuming the key and then parsing it, inferred from their call sites.
- The constant values of crates not shown are assumed names of this model:
  - the credential provider names;
  - the COPY TO destination and format names;
  - the object store configuration keys;
  - `DEFAULT_CATALOG` as "default" and `CURRENT_SESSION_SCHEMA` as "current_session".
- Error messages that embed a `{:?}` rendering omit it, because Rust's Debug escaping is not modelled. This covers the unsupported-SQL-type error and the SHOW error.
- The three-part schema error renders the reference as `c.s.t`. The Azure credentials error renders the provider by its name.
- A Rust `unreachable!()` or failed `unwrap()` is modelled as returning a `Panic` error value, which aborts nothing here; this covers the mismatched GCS and S3 credentials of COPY TO and the source encoding of the CreateTable node.
- Strings.Lower: case folding is ASCII only, where Rust's `to_lowercase` is Unicode.
- The table-copy source of COPY TO (`quoted_table_ref` and reparsing) is left out because it depends on Debug quoting.
- The arm of `plan_copy_to` for an unsupported destination is not modelled, because it is unreachable once the target resolves.
- The planners outside the core are left out: CREATE EXTERNAL TABLE and DATABASE, tunnels, dropping and altering databases and tunnels, `SET`, transactions, EXPLAIN and queries.
- The fallthrough `UnsupportedSQLStatement(stmt.to_string())` arm is left out.
- DELETE's `tables` guard and the planning of WHERE and assignment values are left out.
- Statements.PlanInsert: stops at the access check; the table provider lookup and the remote-stub downcast that follow are not modelled.
- Preprocess.Preprocess: a statement is modelled as the array of its top-level expressions, visited in order. The visitor's walk over statement parts other than expressions is not modelled.
- CreateTableNode.Decode: the schema and table name conversions are parameters, so the node's schema is a sequence of fields rather than the query engine's schema type.
- The CreateTableNode `schema()` accessor is a field read and has no separate member.
- These behaviours of the code are modelled as written, though a reader might expect otherwise:
  - surplus CREATE TABLE AS columns are ignored, not rejected;
  - INSERT plans its source before the access check;
  - an explicit COPY TO format is not lower-cased;
  - the CSV delimiter key keeps its spelling "delimeter".

## Findings

| source | as written | input that shows it | evidently intended | confidence | as-written member | corrected member |
|---|---|---|---|---|---|---|
| crates/sqlexec/src/planner/session_planner.rs:2546 | precision and scale are cast with `as u8` and `as i8` before the range check, which silently truncates them | DECIMAL(294, 2) gives Decimal128(38, 2); DECIMAL(10, 255) gives scale -1 | out-of-range precision and scale are rejected by the `0 < precision <= 38`, `scale <= precision` check the error states | not executed | SqlTypes.MakeDecimalTypeAsWritten, which the type mapping uses as the code does (shown by SqlTypes.AsWrittenAcceptsOversizedPrecision and SqlTypes.MappingAcceptsOversizedPrecision) | SqlTypes.MakeDecimalType, and the NUMERIC/DECIMAL arm built on it, SqlTypes.DecimalOfCorrected (agreement on untruncated values: SqlTypes.DecimalArmAgreesOnSmallValues) |
