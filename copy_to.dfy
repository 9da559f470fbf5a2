/**
 * `COPY <source> TO <destination> [FORMAT f] OPTIONS (...)`: choosing the
 * destination and its options, then the output format and its options
 * (`plan_copy_to` and its local `get_bucket`). Planning the source query is
 * not part of this model.
 *
 * Each step is specified by a function from the options bag to a result and
 * the bag that is left, and implemented by a method that consumes entries
 * from a `StatementOptions` object in the same order.
 */
module CopyTo {
  import opened Wrappers
  import opened Errors
  import Strings
  import opened Options
  import opened ObjectStore
  import opened Credentials

  // Destination names, as spelled by the datasource options crate.
  const DEST_LOCAL := "local"
  const DEST_GCS := "gcs"
  const DEST_S3 := "s3"
  const DEST_AZURE := "azure"

  const DESTINATIONS: set<string> := {DEST_LOCAL, DEST_GCS, DEST_S3, DEST_AZURE}

  // Format names, as spelled by the datasource options crate.
  const FORMAT_CSV := "csv"
  const FORMAT_PARQUET := "parquet"
  const FORMAT_JSON := "json"
  const FORMAT_BSON := "bson"
  const FORMAT_LANCE := "lance"
  const FORMAT_DELTA := "delta"

  const DEFAULT_ROW_GROUP_SIZE: nat := 122880

  /** Where a COPY TO writes, with everything the destination needs. */
  datatype DestinationOptions =
    | Local(location: string)
    | GcsDest(serviceAccountKey: Option<string>, bucket: string, location: string)
    | S3Dest(accessKeyId: Option<string>, secretAccessKey: Option<string>, region: string, bucket: string, location: string)
    | AzureDest(account: string, accessKey: string, container: string, location: string)
  {
    function AsStr(): string {
      match this
      case Local(_) => DEST_LOCAL
      case GcsDest(_, _, _) => DEST_GCS
      case S3Dest(_, _, _, _, _) => DEST_S3
      case AzureDest(_, _, _, _) => DEST_AZURE
    }
  }

  /** The output format and its options; the delimiter is a byte. */
  datatype FormatOptions =
    | Csv(delim: int, header: bool)
    | Parquet(rowGroupSize: nat)
    | Json(isArray: bool)
    | Bson
    | Lance(maxRowsPerFile: Option<nat>, maxRowsPerGroup: Option<nat>, maxBytesPerFile: Option<nat>, inputBatchSize: Option<nat>)
    | Delta
  {
    function AsStr(): string {
      match this
      case Csv(_, _) => FORMAT_CSV
      case Parquet(_) => FORMAT_PARQUET
      case Json(_) => FORMAT_JSON
      case Bson => FORMAT_BSON
      case Lance(_, _, _, _) => FORMAT_LANCE
      case Delta => FORMAT_DELTA
    }
  }

  /** The planned copy, without its source plan. */
  datatype CopyToPlan = CopyToPlan(format: FormatOptions, dest: DestinationOptions)

  /** Typed parsing of option values (`FromOptionValue` for char, bool and usize). */
  datatype ValueParsers = ValueParsers(
    parseChar: string -> Option<char>,
    parseBool: string -> Option<bool>,
    parseUsize: string -> Option<nat>)

  // ---- File names and extensions, following Rust's std::path::Path ----

  /** The index just after the last '/' of `p`, or 0 when it has none. */
  function AfterLastSlash(p: string): (k: nat)
    ensures k <= |p| && '/' !in p[k..]
    ensures k > 0 ==> p[k - 1] == '/'
  {
    if p == [] then 0
    else if p[|p| - 1] == '/' then |p|
    else AfterLastSlash(p[..|p| - 1])
  }

  /**
   * `Path::file_name`: the last normal component; trailing separators and
   * "." components are skipped, and a path ending in ".." has none.
   */
  function FileName(p: string): (r: Option<string>)
    ensures r.Some? ==> r.value != [] && r.value != "." && r.value != ".." && '/' !in r.value
    decreases |p|
  {
    var k := AfterLastSlash(p);
    var last := p[k..];
    if last == "" || last == "." then
      if k == 0 then None else FileName(p[..k - 1])
    else if last == ".." then None
    else Some(last)
  }

  /** The index of the last '.' of `s`, if any. */
  function LastDot(s: string): (r: Option<nat>)
    ensures r.Some? ==> r.value < |s| && s[r.value] == '.' && '.' !in s[r.value + 1..]
    ensures r.None? ==> '.' !in s
  {
    if s == [] then None
    else if s[|s| - 1] == '.' then Some(|s| - 1)
    else
      var r := LastDot(s[..|s| - 1]);
      assert s == s[..|s| - 1] + [s[|s| - 1]];
      r
  }

  /**
   * `Path::extension`: the part of the file name after its last '.', unless
   * the name has no '.' or its only '.' is the leading one.
   */
  function Extension(p: string): (r: Option<string>)
    ensures r.Some? ==> '.' !in r.value && '/' !in r.value
    ensures r.Some? ==> exists name :: FileName(p) == Some(name) && |r.value| < |name| - 1 && name[|name| - |r.value| - 1..] == "." + r.value
    ensures r.None? <==>
      FileName(p).None? || '.' !in FileName(p).value
      || (FileName(p).value[0] == '.' && '.' !in FileName(p).value[1..])
  {
    match FileName(p)
    case None => None
    case Some(name) =>
      match LastDot(name)
      case None => None
      case Some(d) =>
        if d == 0 then None
        else
          assert name[1..][d - 1] == '.';
          var ext := name[d + 1..];
          assert name[|name| - |ext| - 1..] == "." + ext;
          Some(ext)
  }

  lemma ExtensionOfCsvFile()
    ensures Extension("out/data.CSV") == Some("CSV")
  {
    var p := "out/data.CSV";
    assert p[..|p| - 1] == "out/data.CS";
    assert AfterLastSlash(p) == 4;
    assert p[4..] == "data.CSV";
    assert FileName(p) == Some("data.CSV");
    assert LastDot("data.CSV") == Some(4);
    assert "data.CSV"[5..] == "CSV";
  }

  lemma NoExtensionOfHiddenFile()
    ensures Extension(".hidden") == None
  {
    assert LastDot(".hidden") == Some(0);
  }

  // ---- Destination ----

  /** The destination name, the parsed URL if any, and the location to write. */
  datatype Target = Target(destination: string, uri: Option<DatasourceUrl>, location: string)

  /** The destination a URL type writes to; HTTP URLs are not a destination. */
  function DestinationOfType(t: UrlType): Option<string> {
    match t
    case LocalFile => Some(DEST_LOCAL)
    case Gcs => Some(DEST_GCS)
    case S3 => Some(DEST_S3)
    case Azure => Some(DEST_AZURE)
    case Http => None
  }

  /**
   * A destination keyword takes its location from the `location` option (a
   * URL location keeps the URL and writes to its path); anything else must be
   * a URL or path whose type names the destination.
   */
  function TargetFor(destination: string, m: map<string, string>, urls: UrlSupport): (r: (Result<Target, PlanError>, map<string, string>))
    ensures destination in DESTINATIONS ==> r.1 == m - {"location"}
    ensures destination !in DESTINATIONS ==> r.1 == m
    ensures destination in DESTINATIONS && "location" !in m ==> r.0 == Failure(MissingOption("location"))
    ensures destination in DESTINATIONS && r.0.Success? ==>
      r.0.value.destination == destination
      && (IsUrl(m["location"], urls) ==>
            r.0.value.uri == Some(urls.parse(m["location"]).value)
            && r.0.value.location == PathOf(urls.parse(m["location"]).value))
      && (!IsUrl(m["location"], urls) ==> r.0.value.uri == None && r.0.value.location == m["location"])
    ensures destination !in DESTINATIONS ==>
      (r.0.Success? <==> urls.parse(destination).Success? && TypeOf(urls.parse(destination).value) != Http)
    ensures destination !in DESTINATIONS && r.0.Success? ==>
      var u := urls.parse(destination).value;
      r.0.value == Target(DestinationOfType(TypeOf(u)).value, Some(u), PathOf(u))
    ensures r.0.Success? ==> r.0.value.destination in DESTINATIONS
  {
    if destination in DESTINATIONS then
      var rest := m - {"location"};
      match RequiredValue(m, "location", AsString)
      case Failure(e) => (Failure(e), rest)
      case Success(location) =>
        match urls.parse(location)
        case Success(u) =>
          if u.Url? then (Success(Target(destination, Some(u), PathOf(u))), rest)
          else (Success(Target(destination, None, location)), rest)
        case Failure(_) => (Success(Target(destination, None, location)), rest)
    else
      match urls.parse(destination)
      case Failure(e) => (Failure(e), m)
      case Success(u) =>
        match DestinationOfType(TypeOf(u))
        case None => (Failure(Internal("invalid URL scheme")), m)
        case Some(d) => (Success(Target(d, Some(u), PathOf(u))), m)
  }

  /** `get_bucket`: the URL's host when there is a URL, else the bucket option. */
  function BucketFor(m: map<string, string>, uri: Option<DatasourceUrl>, bucketKey: string): (r: (Result<string, PlanError>, map<string, string>))
    ensures uri.Some? ==> r.1 == m && r.0 == if HostOf(uri.value).Some? then Success(HostOf(uri.value).value)
                                           else Failure(Internal("missing " + bucketKey + " name in URL"))
    ensures uri.None? ==> r == (RequiredValue(m, bucketKey, AsString), m - {bucketKey})
  {
    match uri
    case Some(u) =>
      (match HostOf(u)
       case Some(h) => (Success(h), m)
       case None => (Failure(Internal("missing " + bucketKey + " name in URL")), m))
    case None => (RequiredValue(m, bucketKey, AsString), m - {bucketKey})
  }

  /** The keys `get_bucket` consumes: the bucket option, unless a URL names the bucket. */
  function BucketKeys(uri: Option<DatasourceUrl>, bucketKey: string): (r: set<string>)
    ensures uri.None? <==> bucketKey in r
    ensures r <= {bucketKey}
  {
    if uri.None? then {bucketKey} else {}
  }

  /** The value of a string option given in the statement, else the fallback. */
  function GivenOr(m: map<string, string>, key: string, fallback: Option<string>): (r: Option<string>)
    ensures key in m ==> r == Some(m[key])
    ensures key !in m ==> r == fallback
  {
    if key in m then Some(m[key]) else fallback
  }

  /**
   * GCS: the service account key option, else the stored key, then the
   * bucket. Only the bucket can fail.
   */
  function GcsDestination(t: Target, storedKey: Option<string>, m: map<string, string>): (r: (Result<DestinationOptions, PlanError>, map<string, string>))
    ensures r.0.Success? <==> BucketFor(m, t.uri, "bucket").0.Success?
    ensures r.0.Success? ==>
      r.0.value == GcsDest(GivenOr(m, "service_account_key", storedKey), BucketFor(m, t.uri, "bucket").0.value, t.location)
    ensures r.0.Failure? ==> r.0.error == BucketFor(m, t.uri, "bucket").0.error
    ensures r.1 == m - {"service_account_key"} - BucketKeys(t.uri, "bucket")
  {
    var key := OptionalOrValue(m, "service_account_key", storedKey, AsString).value;
    var m1 := m - {"service_account_key"};
    var (bucket, m2) := BucketFor(m1, t.uri, "bucket");
    assert bucket == BucketFor(m, t.uri, "bucket").0;
    match bucket
    case Failure(e) => (Failure(e), m2)
    case Success(b) => (Success(GcsDest(key, b, t.location)), m2)
  }

  /**
   * S3: the access key id and secret options, each else its stored value,
   * then the required region, then the bucket.
   */
  function S3Destination(t: Target, stored: Option<(string, string)>, m: map<string, string>): (r: (Result<DestinationOptions, PlanError>, map<string, string>))
    ensures r.0.Success? <==> "region" in m && BucketFor(m, t.uri, "bucket").0.Success?
    ensures "region" !in m ==> r.0 == Failure(MissingOption("region"))
    ensures "region" in m && r.0.Failure? ==> r.0.error == BucketFor(m, t.uri, "bucket").0.error
    ensures r.0.Success? ==>
      r.0.value == S3Dest(GivenOr(m, "access_key_id", if stored.Some? then Some(stored.value.0) else None),
                          GivenOr(m, "secret_access_key", if stored.Some? then Some(stored.value.1) else None),
                          m["region"], BucketFor(m, t.uri, "bucket").0.value, t.location)
    ensures r.1 == m - {"access_key_id", "secret_access_key", "region"}
                     - (if "region" in m then BucketKeys(t.uri, "bucket") else {})
  {
    var id := OptionalOrValue(m, "access_key_id", if stored.Some? then Some(stored.value.0) else None, AsString).value;
    var m1 := m - {"access_key_id"};
    var secret := OptionalOrValue(m1, "secret_access_key", if stored.Some? then Some(stored.value.1) else None, AsString).value;
    var m2 := m1 - {"secret_access_key"};
    var m3 := m2 - {"region"};
    match RequiredValue(m2, "region", AsString)
    case Failure(e) => (Failure(e), m3)
    case Success(region) =>
      var (bucket, m4) := BucketFor(m3, t.uri, "bucket");
      assert bucket == BucketFor(m, t.uri, "bucket").0;
      match bucket
      case Failure(e) => (Failure(e), m4)
      case Success(b) => (Success(S3Dest(id, secret, region, b, t.location)), m4)
  }

  /**
   * Azure: the stored account name and access key when there are stored
   * credentials (the options are then not read), else the two required
   * options; then the container.
   */
  function AzureDestination(t: Target, stored: Option<(string, string)>, m: map<string, string>): (r: (Result<DestinationOptions, PlanError>, map<string, string>))
    ensures r.0.Success? <==>
      (stored.Some? || ("account_name" in m && "access_key" in m)) && BucketFor(m, t.uri, "container").0.Success?
    ensures stored.None? && "account_name" !in m ==> r == (Failure(MissingOption("account_name")), m)
    ensures stored.None? && "account_name" in m && "access_key" !in m ==>
      r == (Failure(MissingOption("access_key")), m - {"account_name"})
    ensures (stored.Some? || ("account_name" in m && "access_key" in m)) ==>
      && r.1 == m - (if stored.None? then {"account_name", "access_key"} else {}) - BucketKeys(t.uri, "container")
      && (r.0.Failure? ==> r.0.error == BucketFor(m, t.uri, "container").0.error)
    ensures r.0.Success? ==>
      r.0.value == AzureDest(if stored.Some? then stored.value.0 else m["account_name"],
                             if stored.Some? then stored.value.1 else m["access_key"],
                             BucketFor(m, t.uri, "container").0.value, t.location)
  {
    var keys: (Result<(string, string), PlanError>, map<string, string>) :=
      if stored.Some? then (Success(stored.value), m)
      else
        var m1 := m - {"account_name"};
        match RequiredValue(m, "account_name", AsString)
        case Failure(e) =>
          assert m1 == m;
          (Failure(e), m1)
        case Success(account) =>
          match RequiredValue(m1, "access_key", AsString)
          case Failure(e) =>
            assert m1 - {"access_key"} == m1;
            (Failure(e), m1 - {"access_key"})
          case Success(key) => (Success((account, key)), m1 - {"access_key"});
    match keys.0
    case Failure(e) => (Failure(e), keys.1)
    case Success((account, key)) =>
      var (container, m2) := BucketFor(keys.1, t.uri, "container");
      assert container == BucketFor(m, t.uri, "container").0;
      match container
      case Failure(e) => (Failure(e), m2)
      case Success(c) => (Success(AzureDest(account, key, c, t.location)), m2)
  }

  /** The stored GCS key, S3 key pair and Azure account and key, when the credentials are of that provider. */
  function GcpStored(creds: Option<CredentialsOptions>): Option<string> {
    if creds.Some? && creds.value.Gcp? then Some(creds.value.serviceAccountKey) else None
  }

  function AwsStored(creds: Option<CredentialsOptions>): Option<(string, string)> {
    if creds.Some? && creds.value.Aws? then Some((creds.value.accessKeyId, creds.value.secretAccessKey)) else None
  }

  function AzureStored(creds: Option<CredentialsOptions>): Option<(string, string)> {
    if creds.Some? && creds.value.Azure? then Some((creds.value.accountName, creds.value.accessKey)) else None
  }

  /**
   * The destination options. Stored credentials supply the defaults for GCS
   * and S3 keys (an option given in the statement wins) and replace the Azure
   * keys altogether; credentials of another provider are a panic for GCS and
   * S3 and an error for Azure. Options are only ever consumed, never altered.
   */
  function DestinationFor(t: Target, creds: Option<CredentialsOptions>, m: map<string, string>): (r: (Result<DestinationOptions, PlanError>, map<string, string>))
    requires t.destination in DESTINATIONS
    ensures r.0.Success? ==> r.0.value.AsStr() == t.destination && r.0.value.location == t.location
    ensures forall k :: k in r.1 ==> k in m && r.1[k] == m[k]
    ensures t.destination == DEST_LOCAL ==> r == (Success(Local(t.location)), m)
    ensures t.destination == DEST_GCS && creds.Some? && !creds.value.Gcp? ==>
      r == (Failure(Panic("invalid credentials " + creds.value.AsStr() + " for google cloud storage")), m)
    ensures t.destination == DEST_GCS && (creds.None? || creds.value.Gcp?) ==> r == GcsDestination(t, GcpStored(creds), m)
    ensures t.destination == DEST_S3 && creds.Some? && !creds.value.Aws? ==>
      r == (Failure(Panic("invalid credentials " + creds.value.AsStr() + " for aws s3")), m)
    ensures t.destination == DEST_S3 && (creds.None? || creds.value.Aws?) ==> r == S3Destination(t, AwsStored(creds), m)
    ensures t.destination == DEST_AZURE && creds.Some? && !creds.value.Azure? ==>
      r == (Failure(Message("invalid credentials " + creds.value.AsStr() + " for azure")), m)
    ensures t.destination == DEST_AZURE && (creds.None? || creds.value.Azure?) ==> r == AzureDestination(t, AzureStored(creds), m)
    ensures r.0.Success? && r.0.value.GcsDest? ==>
      r.0.value.serviceAccountKey == GivenOr(m, "service_account_key", if creds.Some? then Some(creds.value.serviceAccountKey) else None)
      && BucketFor(m, t.uri, "bucket").0 == Success(r.0.value.bucket)
    ensures r.0.Success? && r.0.value.S3Dest? ==>
      && "region" in m && r.0.value.region == m["region"]
      && r.0.value.accessKeyId == GivenOr(m, "access_key_id", if creds.Some? then Some(creds.value.accessKeyId) else None)
      && r.0.value.secretAccessKey == GivenOr(m, "secret_access_key", if creds.Some? then Some(creds.value.secretAccessKey) else None)
      && BucketFor(m, t.uri, "bucket").0 == Success(r.0.value.bucket)
    ensures r.0.Success? && r.0.value.AzureDest? ==>
      (creds.Some? ==> r.0.value.account == creds.value.accountName && r.0.value.accessKey == creds.value.accessKey)
      && (creds.None? ==>
            "account_name" in m && "access_key" in m
            && r.0.value.account == m["account_name"] && r.0.value.accessKey == m["access_key"])
      && BucketFor(m, t.uri, "container").0 == Success(r.0.value.container)
  {
    if t.destination == DEST_LOCAL then
      (Success(Local(t.location)), m)
    else if t.destination == DEST_GCS then
      if creds.Some? && !creds.value.Gcp? then
        (Failure(Panic("invalid credentials " + creds.value.AsStr() + " for google cloud storage")), m)
      else
        GcsDestination(t, GcpStored(creds), m)
    else if t.destination == DEST_S3 then
      if creds.Some? && !creds.value.Aws? then
        (Failure(Panic("invalid credentials " + creds.value.AsStr() + " for aws s3")), m)
      else
        S3Destination(t, AwsStored(creds), m)
    else
      if creds.Some? && !creds.value.Azure? then
        (Failure(Message("invalid credentials " + creds.value.AsStr() + " for azure")), m)
      else
        AzureDestination(t, AzureStored(creds), m)
  }

  // ---- Format ----

  /** The format name: an explicit FORMAT, else the destination's extension, lower-cased. */
  function FormatName(explicit: Option<string>, location: string): (r: Option<string>)
    ensures explicit.Some? ==> r == explicit
    ensures explicit.None? && Extension(location).None? ==> r.None?
    ensures explicit.None? && Extension(location).Some? ==> r == Some(Strings.Lower(Extension(location).value))
  {
    match explicit
    case Some(f) => Some(f)
    case None =>
      match Extension(location)
      case Some(ext) => Some(Strings.Lower(ext))
      case None => None
  }

  /** Rust's `c as u8` on a `char`: the low eight bits of its code point. */
  function CharAsU8(c: char): (b: int)
    ensures 0 <= b < 256 && (c as int < 256 ==> b == c as int)
  {
    c as int % 256
  }

  /** An option that is absent or parses. */
  predicate OptionParses<T>(m: map<string, string>, key: string, parse: string -> Option<T>) {
    key !in m || parse(m[key]).Some?
  }

  /** `remove_optional(key)?.unwrap_or(d)` once the option is known to parse: its value, else `d`. */
  function ParsedOr<T>(m: map<string, string>, key: string, parse: string -> Option<T>, d: T): (r: T)
    ensures key in m && parse(m[key]).Some? ==> r == parse(m[key]).value
    ensures key !in m ==> r == d
  {
    if key in m && parse(m[key]).Some? then parse(m[key]).value else d
  }

  /**
   * CSV: the delimiter (default ',', kept as its low byte) and then the
   * header flag (default true); the first malformed one is the error.
   */
  function CsvFormat(m: map<string, string>, parsers: ValueParsers): (r: (Result<FormatOptions, PlanError>, map<string, string>))
    ensures r.0.Success? <==> OptionParses(m, "delimeter", parsers.parseChar) && OptionParses(m, "header", parsers.parseBool)
    ensures r.0.Success? ==>
      && r.0.value == Csv(CharAsU8(ParsedOr(m, "delimeter", parsers.parseChar, ',')), ParsedOr(m, "header", parsers.parseBool, true))
      && r.1 == m - {"delimeter", "header"}
    ensures !OptionParses(m, "delimeter", parsers.parseChar) ==>
      r == (Failure(OptionParseError("delimeter", m["delimeter"])), m - {"delimeter"})
    ensures OptionParses(m, "delimeter", parsers.parseChar) && !OptionParses(m, "header", parsers.parseBool) ==>
      r == (Failure(OptionParseError("header", m["header"])), m - {"delimeter", "header"})
  {
    var m1 := m - {"delimeter"};
    var m2 := m1 - {"header"};
    assert m2 == m - {"delimeter", "header"};
    match OptionalValue(m, "delimeter", parsers.parseChar)
    case Failure(e) => (Failure(e), m1)
    case Success(delim) =>
      assert "header" in m1 <==> "header" in m;
      match OptionalValue(m1, "header", parsers.parseBool)
      case Failure(e) => (Failure(e), m2)
      case Success(header) => (Success(Csv(CharAsU8(delim.GetOr(',')), header.GetOr(true))), m2)
  }

  /** Parquet: the row group size, 122880 when absent. */
  function ParquetFormat(m: map<string, string>, parsers: ValueParsers): (r: (Result<FormatOptions, PlanError>, map<string, string>))
    ensures r.1 == m - {"row_group_size"}
    ensures r.0.Success? <==> OptionParses(m, "row_group_size", parsers.parseUsize)
    ensures r.0.Success? ==> r.0.value == Parquet(ParsedOr(m, "row_group_size", parsers.parseUsize, DEFAULT_ROW_GROUP_SIZE))
    ensures r.0.Failure? ==> r.0.error == OptionParseError("row_group_size", m["row_group_size"])
  {
    var m1 := m - {"row_group_size"};
    match OptionalValue(m, "row_group_size", parsers.parseUsize)
    case Failure(e) => (Failure(e), m1)
    case Success(size) => (Success(Parquet(size.GetOr(DEFAULT_ROW_GROUP_SIZE))), m1)
  }

  /** JSON: whether to write one array, false when absent. */
  function JsonFormat(m: map<string, string>, parsers: ValueParsers): (r: (Result<FormatOptions, PlanError>, map<string, string>))
    ensures r.1 == m - {"array"}
    ensures r.0.Success? <==> OptionParses(m, "array", parsers.parseBool)
    ensures r.0.Success? ==> r.0.value == Json(ParsedOr(m, "array", parsers.parseBool, false))
    ensures r.0.Failure? ==> r.0.error == OptionParseError("array", m["array"])
  {
    var m1 := m - {"array"};
    match OptionalValue(m, "array", parsers.parseBool)
    case Failure(e) => (Failure(e), m1)
    case Success(isArray) => (Success(Json(isArray.GetOr(false))), m1)
  }

  /**
   * The format options for a format name. Options are read only once the
   * format is known; BSON and Delta read none, and an unknown name is an
   * error that reads none either.
   */
  function FormatFor(name: Option<string>, m: map<string, string>, parsers: ValueParsers, defaultFormat: FormatOptions): (r: (Result<FormatOptions, PlanError>, map<string, string>))
    ensures name.None? ==> r == (Success(defaultFormat), m)
    ensures name.Some? && name.value !in {FORMAT_CSV, FORMAT_PARQUET, FORMAT_JSON, FORMAT_BSON, FORMAT_LANCE, FORMAT_DELTA} ==>
      r == (Failure(Internal("unsupported output format: " + name.value)), m)
    ensures name.Some? && r.0.Success? ==> r.0.value.AsStr() == name.value
    ensures name == Some(FORMAT_CSV) ==> r == CsvFormat(m, parsers)
    ensures name == Some(FORMAT_PARQUET) ==> r == ParquetFormat(m, parsers)
    ensures name == Some(FORMAT_JSON) ==> r == JsonFormat(m, parsers)
    ensures name == Some(FORMAT_BSON) ==> r == (Success(Bson), m)
    ensures name == Some(FORMAT_LANCE) ==> r == LanceFormat(m, parsers.parseUsize)
    ensures name == Some(FORMAT_DELTA) ==> r == (Success(Delta), m)
  {
    match name
    case None => (Success(defaultFormat), m)
    case Some(f) =>
      if f == FORMAT_CSV then CsvFormat(m, parsers)
      else if f == FORMAT_PARQUET then ParquetFormat(m, parsers)
      else if f == FORMAT_JSON then JsonFormat(m, parsers)
      else if f == FORMAT_BSON then (Success(Bson), m)
      else if f == FORMAT_LANCE then LanceFormat(m, parsers.parseUsize)
      else if f == FORMAT_DELTA then (Success(Delta), m)
      else (Failure(Internal("unsupported output format: " + f)), m)
  }

  const LANCE_KEYS := ["max_rows_per_file", "max_rows_per_group", "max_bytes_per_file", "input_batch_size"]

  /** A size option: its parsed value when given, None when absent. */
  function GivenSize(m: map<string, string>, key: string, parseUsize: string -> Option<nat>): (r: Option<nat>)
    ensures key !in m ==> r.None?
    ensures key in m ==> r == parseUsize(m[key])
  {
    if key in m then parseUsize(m[key]) else None
  }

  /** A size option that is absent or parses. */
  predicate SizeParses(m: map<string, string>, key: string, parseUsize: string -> Option<nat>) {
    key !in m || parseUsize(m[key]).Some?
  }

  /** The Lance options, four optional sizes read in order; the first malformed one is the error. */
  function LanceFormat(m: map<string, string>, parseUsize: string -> Option<nat>): (r: (Result<FormatOptions, PlanError>, map<string, string>))
    ensures r.0.Success? ==> r.1 == m - set k | k in LANCE_KEYS
    ensures r.0.Success? <==>
      && SizeParses(m, "max_rows_per_file", parseUsize) && SizeParses(m, "max_rows_per_group", parseUsize)
      && SizeParses(m, "max_bytes_per_file", parseUsize) && SizeParses(m, "input_batch_size", parseUsize)
    ensures r.0.Success? ==>
      r.0.value == Lance(GivenSize(m, "max_rows_per_file", parseUsize), GivenSize(m, "max_rows_per_group", parseUsize),
                         GivenSize(m, "max_bytes_per_file", parseUsize), GivenSize(m, "input_batch_size", parseUsize))
    ensures r.0.Failure? ==>
      var key :=
        if !SizeParses(m, "max_rows_per_file", parseUsize) then "max_rows_per_file"
        else if !SizeParses(m, "max_rows_per_group", parseUsize) then "max_rows_per_group"
        else if !SizeParses(m, "max_bytes_per_file", parseUsize) then "max_bytes_per_file"
        else "input_batch_size";
      key in m && r.0.error == OptionParseError(key, m[key])
  {
    var m1 := m - {"max_rows_per_file"};
    match OptionalValue(m, "max_rows_per_file", parseUsize)
    case Failure(e) => (Failure(e), m1)
    case Success(a) =>
      var m2 := m1 - {"max_rows_per_group"};
      match OptionalValue(m1, "max_rows_per_group", parseUsize)
      case Failure(e) => (Failure(e), m2)
      case Success(b) =>
        var m3 := m2 - {"max_bytes_per_file"};
        match OptionalValue(m2, "max_bytes_per_file", parseUsize)
        case Failure(e) => (Failure(e), m3)
        case Success(c) =>
          var m4 := m3 - {"input_batch_size"};
          match OptionalValue(m3, "input_batch_size", parseUsize)
          case Failure(e) => (Failure(e), m4)
          case Success(d) =>
            assert m4 == m - set k | k in LANCE_KEYS;
            (Success(Lance(a, b, c, d)), m4)
  }

  /** Whatever else the bag holds, a format whose options are not given takes its documented defaults. */
  lemma FormatDefaults(m: map<string, string>, parsers: ValueParsers, defaultFormat: FormatOptions)
    ensures "delimeter" !in m && "header" !in m ==> FormatFor(Some(FORMAT_CSV), m, parsers, defaultFormat) == (Success(Csv(44, true)), m)
    ensures "row_group_size" !in m ==> FormatFor(Some(FORMAT_PARQUET), m, parsers, defaultFormat) == (Success(Parquet(122880)), m)
    ensures "array" !in m ==> FormatFor(Some(FORMAT_JSON), m, parsers, defaultFormat) == (Success(Json(false)), m)
    ensures (forall k :: k in LANCE_KEYS ==> k !in m) ==>
      FormatFor(Some(FORMAT_LANCE), m, parsers, defaultFormat) == (Success(Lance(None, None, None, None)), m)
  {
    if "delimeter" !in m && "header" !in m {
      assert m - {"delimeter", "header"} == m;
    }
    assert "row_group_size" !in m ==> m - {"row_group_size"} == m;
    assert "array" !in m ==> m - {"array"} == m;
    if forall k :: k in LANCE_KEYS ==> k !in m {
      assert m - (set k | k in LANCE_KEYS) == m;
    }
  }

  /** The collaborators of COPY TO planning from crates outside this model. */
  datatype CopyToEnv = CopyToEnv(
    urls: UrlSupport,
    resolveCredentials: string -> Option<CredentialsOptions>,
    // `validate_copyto_dest_creds_support(destination, provider)`
    credsSupport: (string, string) -> Result<(), PlanError>,
    // `validate_copyto_dest_format_support(destination, format)`
    formatSupport: (string, string) -> Result<(), PlanError>,
    parsers: ValueParsers,
    // `CopyToFormatOptions::default()`
    defaultFormat: FormatOptions)

  /**
   * The whole option-driven part of `plan_copy_to`: target, stored
   * credentials and their support check, destination options, format and its
   * options, and the format support check, in that order.
   */
  function CopyToFor(destination: string, format: Option<string>, credentials: Option<string>, m: map<string, string>, env: CopyToEnv): (r: (Result<CopyToPlan, PlanError>, map<string, string>))
    ensures r.0.Success? <==>
      var (t, m1) := TargetFor(destination, m, env.urls);
      var creds := GetCredentialsOpts(credentials, env.resolveCredentials);
      && t.Success? && creds.Success?
      && (creds.value.Some? ==> env.credsSupport(t.value.destination, creds.value.value.AsStr()).Success?)
      && var (d, m2) := DestinationFor(t.value, creds.value, m1);
      && d.Success?
      && var (f, m3) := FormatFor(FormatName(format, d.value.location), m2, env.parsers, env.defaultFormat);
      && f.Success? && env.formatSupport(d.value.AsStr(), f.value.AsStr()).Success?
    ensures r.0.Success? ==>
      var (t, m1) := TargetFor(destination, m, env.urls);
      var (d, m2) := DestinationFor(t.value, GetCredentialsOpts(credentials, env.resolveCredentials).value, m1);
      var (f, m3) := FormatFor(FormatName(format, d.value.location), m2, env.parsers, env.defaultFormat);
      r.0.value == CopyToPlan(f.value, d.value) && r.1 == m3
    ensures
      var (t, m1) := TargetFor(destination, m, env.urls);
      var creds := GetCredentialsOpts(credentials, env.resolveCredentials);
      t.Success? && creds.Success? && creds.value.Some?
      && env.credsSupport(t.value.destination, creds.value.value.AsStr()).Failure? ==>
        r == (Failure(InvalidCopyToStatement(env.credsSupport(t.value.destination, creds.value.value.AsStr()).error)), m1)
    ensures
      var (t, m1) := TargetFor(destination, m, env.urls);
      var creds := GetCredentialsOpts(credentials, env.resolveCredentials);
      && t.Success? && creds.Success?
      && (creds.value.Some? ==> env.credsSupport(t.value.destination, creds.value.value.AsStr()).Success?)
      && DestinationFor(t.value, creds.value, m1).0.Success? ==>
        var (d, m2) := DestinationFor(t.value, creds.value, m1);
        var (f, m3) := FormatFor(FormatName(format, d.value.location), m2, env.parsers, env.defaultFormat);
        f.Success? && env.formatSupport(d.value.AsStr(), f.value.AsStr()).Failure? ==>
          r == (Failure(InvalidExternalTable(env.formatSupport(d.value.AsStr(), f.value.AsStr()).error)), m3)
    ensures r.0.Success? ==> r.0.value.dest.AsStr() in DESTINATIONS
    ensures r.0.Success? && format.Some? ==> r.0.value.format.AsStr() == format.value
    ensures r.0.Success? && format.None? && Extension(r.0.value.dest.location).Some? ==>
      r.0.value.format.AsStr() == Strings.Lower(Extension(r.0.value.dest.location).value)
    ensures r.0.Success? && format.None? && Extension(r.0.value.dest.location).None? ==> r.0.value.format == env.defaultFormat
  {
    var (t, m1) := TargetFor(destination, m, env.urls);
    match t
    case Failure(e) => (Failure(e), m1)
    case Success(target) =>
      match GetCredentialsOpts(credentials, env.resolveCredentials)
      case Failure(e) => (Failure(e), m1)
      case Success(creds) =>
        var support := if creds.Some? then env.credsSupport(target.destination, creds.value.AsStr()) else Success(());
        match support
        case Failure(e) => (Failure(InvalidCopyToStatement(e)), m1)
        case Success(_) =>
          var (d, m2) := DestinationFor(target, creds, m1);
          match d
          case Failure(e) => (Failure(e), m2)
          case Success(dest) =>
            var (f, m3) := FormatFor(FormatName(format, dest.location), m2, env.parsers, env.defaultFormat);
            match f
            case Failure(e) => (Failure(e), m3)
            case Success(fmt) =>
              match env.formatSupport(dest.AsStr(), fmt.AsStr())
              case Failure(e) => (Failure(InvalidExternalTable(e)), m3)
              case Success(_) => (Success(CopyToPlan(fmt, dest)), m3)
  }

  // ---- The planner's steps over the mutable options bag ----

  method ResolveCopyToTarget(destination: string, m: StatementOptions, urls: UrlSupport) returns (r: Result<Target, PlanError>)
    modifies m
    ensures (r, m.inner) == TargetFor(destination, old(m.inner), urls)
  {
    if destination in DESTINATIONS {
      var location := m.RemoveRequired("location", AsString);
      if location.Failure? {
        return Failure(location.error);
      }
      var parsed := urls.parse(location.value);
      if parsed.Success? && parsed.value.Url? {
        r := Success(Target(destination, Some(parsed.value), PathOf(parsed.value)));
      } else {
        r := Success(Target(destination, None, location.value));
      }
    } else {
      var parsed := urls.parse(destination);
      if parsed.Failure? {
        return Failure(parsed.error);
      }
      var d := DestinationOfType(TypeOf(parsed.value));
      if d.None? {
        return Failure(Internal("invalid URL scheme"));
      }
      r := Success(Target(d.value, Some(parsed.value), PathOf(parsed.value)));
    }
  }

  method GetBucket(m: StatementOptions, uri: Option<DatasourceUrl>, bucketKey: string) returns (r: Result<string, PlanError>)
    modifies m
    ensures (r, m.inner) == BucketFor(old(m.inner), uri, bucketKey)
  {
    match uri {
      case Some(u) =>
        var host := HostOf(u);
        if host.None? {
          return Failure(Internal("missing " + bucketKey + " name in URL"));
        }
        r := Success(host.value);
      case None =>
        r := m.RemoveRequired(bucketKey, AsString);
    }
  }

  method PlanDestination(t: Target, creds: Option<CredentialsOptions>, m: StatementOptions) returns (r: Result<DestinationOptions, PlanError>)
    requires t.destination in DESTINATIONS
    modifies m
    ensures (r, m.inner) == DestinationFor(t, creds, old(m.inner))
  {
    if t.destination == DEST_LOCAL {
      return Success(Local(t.location));
    } else if t.destination == DEST_GCS {
      if creds.Some? && !creds.value.Gcp? {
        return Failure(Panic("invalid credentials " + creds.value.AsStr() + " for google cloud storage"));
      }
      var key := m.RemoveOptionalOr("service_account_key", if creds.Some? then Some(creds.value.serviceAccountKey) else None, AsString);
      var bucket := GetBucket(m, t.uri, "bucket");
      if bucket.Failure? {
        return Failure(bucket.error);
      }
      r := Success(GcsDest(key.value, bucket.value, t.location));
    } else if t.destination == DEST_S3 {
      if creds.Some? && !creds.value.Aws? {
        return Failure(Panic("invalid credentials " + creds.value.AsStr() + " for aws s3"));
      }
      var id := m.RemoveOptionalOr("access_key_id", if creds.Some? then Some(creds.value.accessKeyId) else None, AsString);
      var secret := m.RemoveOptionalOr("secret_access_key", if creds.Some? then Some(creds.value.secretAccessKey) else None, AsString);
      var region := m.RemoveRequired("region", AsString);
      if region.Failure? {
        return Failure(region.error);
      }
      var bucket := GetBucket(m, t.uri, "bucket");
      if bucket.Failure? {
        return Failure(bucket.error);
      }
      r := Success(S3Dest(id.value, secret.value, region.value, bucket.value, t.location));
    } else {
      if creds.Some? && !creds.value.Azure? {
        return Failure(Message("invalid credentials " + creds.value.AsStr() + " for azure"));
      }
      var account: string, key: string;
      if creds.Some? {
        account, key := creds.value.accountName, creds.value.accessKey;
      } else {
        var a := m.RemoveRequired("account_name", AsString);
        if a.Failure? {
          return Failure(a.error);
        }
        var k := m.RemoveRequired("access_key", AsString);
        if k.Failure? {
          return Failure(k.error);
        }
        account, key := a.value, k.value;
      }
      var container := GetBucket(m, t.uri, "container");
      if container.Failure? {
        return Failure(container.error);
      }
      r := Success(AzureDest(account, key, container.value, t.location));
    }
  }

  method PlanFormat(name: Option<string>, m: StatementOptions, parsers: ValueParsers, defaultFormat: FormatOptions) returns (r: Result<FormatOptions, PlanError>)
    modifies m
    ensures (r, m.inner) == FormatFor(name, old(m.inner), parsers, defaultFormat)
  {
    if name.None? {
      return Success(defaultFormat);
    }
    var f := name.value;
    if f == FORMAT_CSV {
      var delim := m.RemoveOptional("delimeter", parsers.parseChar);
      if delim.Failure? {
        return Failure(delim.error);
      }
      var header := m.RemoveOptional("header", parsers.parseBool);
      if header.Failure? {
        return Failure(header.error);
      }
      r := Success(Csv(CharAsU8(delim.value.GetOr(',')), header.value.GetOr(true)));
    } else if f == FORMAT_PARQUET {
      var size := m.RemoveOptional("row_group_size", parsers.parseUsize);
      if size.Failure? {
        return Failure(size.error);
      }
      r := Success(Parquet(size.value.GetOr(DEFAULT_ROW_GROUP_SIZE)));
    } else if f == FORMAT_JSON {
      var isArray := m.RemoveOptional("array", parsers.parseBool);
      if isArray.Failure? {
        return Failure(isArray.error);
      }
      r := Success(Json(isArray.value.GetOr(false)));
    } else if f == FORMAT_BSON {
      r := Success(Bson);
    } else if f == FORMAT_LANCE {
      var a := m.RemoveOptional("max_rows_per_file", parsers.parseUsize);
      if a.Failure? {
        return Failure(a.error);
      }
      var b := m.RemoveOptional("max_rows_per_group", parsers.parseUsize);
      if b.Failure? {
        return Failure(b.error);
      }
      var c := m.RemoveOptional("max_bytes_per_file", parsers.parseUsize);
      if c.Failure? {
        return Failure(c.error);
      }
      var d := m.RemoveOptional("input_batch_size", parsers.parseUsize);
      if d.Failure? {
        return Failure(d.error);
      }
      r := Success(Lance(a.value, b.value, c.value, d.value));
    } else if f == FORMAT_DELTA {
      r := Success(Delta);
    } else {
      r := Failure(Internal("unsupported output format: " + f));
    }
  }

  /** The option-driven part of `plan_copy_to`, step by step over the options bag. */
  method PlanCopyTo(destination: string, format: Option<string>, credentials: Option<string>, m: StatementOptions, env: CopyToEnv)
    returns (r: Result<CopyToPlan, PlanError>)
    modifies m
    ensures (r, m.inner) == CopyToFor(destination, format, credentials, old(m.inner), env)
  {
    var t := ResolveCopyToTarget(destination, m, env.urls);
    if t.Failure? {
      return Failure(t.error);
    }
    var creds := GetCredentialsOpts(credentials, env.resolveCredentials);
    if creds.Failure? {
      return Failure(creds.error);
    }
    if creds.value.Some? {
      var support := env.credsSupport(t.value.destination, creds.value.value.AsStr());
      if support.Failure? {
        return Failure(InvalidCopyToStatement(support.error));
      }
    }
    var dest := PlanDestination(t.value, creds.value, m);
    if dest.Failure? {
      return Failure(dest.error);
    }
    var fmt := PlanFormat(FormatName(format, dest.value.location), m, env.parsers, env.defaultFormat);
    if fmt.Failure? {
      return Failure(fmt.error);
    }
    var support := env.formatSupport(dest.value.AsStr(), fmt.value.AsStr());
    if support.Failure? {
      return Failure(InvalidExternalTable(support.error));
    }
    r := Success(CopyToPlan(fmt.value, dest.value));
  }
}
