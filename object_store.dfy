/**
 * Object-store locations and listings: splitting a location into bucket and
 * path (`get_obj_store_bucket_and_location`) and inferring the file type and
 * compression of an external table from its object listing
 * (`validate_and_get_file_type_and_compression`).
 */
module ObjectStore {
  import opened Wrappers
  import opened Errors
  import opened Options

  /** The kind of a datasource URL. */
  datatype UrlType = Http | Gcs | S3 | Azure | LocalFile

  /** A parsed datasource location: a URL, or a path on the local file system. */
  datatype DatasourceUrl =
    | Url(urlType: UrlType, host: Option<string>, path: string)
    | File(filePath: string)

  /**
   * What the datasource crate provides for URLs: parsing (`DatasourceUrl::try_new`,
   * with the planner error its failure converts to) and the display of a URL type.
   */
  datatype UrlSupport = UrlSupport(parse: string -> Result<DatasourceUrl, PlanError>, show: UrlType -> string)

  /** `datasource_url_type`: a local path is of type File. */
  function TypeOf(u: DatasourceUrl): UrlType {
    match u
    case Url(t, _, _) => t
    case File(_) => LocalFile
  }

  /** `path`: the path of a URL, or the local path itself. */
  function PathOf(u: DatasourceUrl): string {
    match u
    case Url(_, _, p) => p
    case File(p) => p
  }

  /** `host`: a URL's host; a local path has none. */
  function HostOf(u: DatasourceUrl): Option<string> {
    match u
    case Url(_, h, _) => h
    case File(_) => None
  }

  /** Whether a location parses as a URL rather than a local path. */
  predicate IsUrl(location: string, urls: UrlSupport) {
    urls.parse(location).Success? && urls.parse(location).value.Url?
  }

  function WrongUrlType(expected: UrlType, found: UrlType, urls: UrlSupport): PlanError {
    Message("expected " + urls.show(expected) + " URL, found " + urls.show(found))
  }

  function MissingBucket(bucketKey: string, ty: UrlType, urls: UrlSupport): PlanError {
    Message("missing " + bucketKey + " name in " + urls.show(ty) + " URL")
  }

  /**
   * The bucket and location for an object store of type `ty`: a URL location
   * must be of that type and name the bucket as its host, and the location
   * becomes the URL's path; any other location is kept verbatim and the
   * bucket comes from the option `bucketKey`.
   */
  function BucketAndLocation(m: map<string, string>, ty: UrlType, bucketKey: string, urls: UrlSupport): (r: Result<(string, string), PlanError>)
    ensures "location" !in m ==> r == Failure(MissingOption("location"))
    ensures "location" in m && IsUrl(m["location"], urls) ==>
      var u := urls.parse(m["location"]).value;
      r == if u.urlType != ty then Failure(WrongUrlType(ty, u.urlType, urls))
           else if u.host.None? then Failure(MissingBucket(bucketKey, ty, urls))
           else Success((u.host.value, u.path))
    ensures "location" in m && !IsUrl(m["location"], urls) ==>
      var rest := m - {"location"};
      r == if bucketKey in rest then Success((rest[bucketKey], m["location"])) else Failure(MissingOption(bucketKey))
  {
    var location :- RequiredValue(m, "location", AsString);
    var parsed := urls.parse(location);
    if parsed.Success? && parsed.value.Url? then
      var u := parsed.value;
      if u.urlType != ty then Failure(WrongUrlType(ty, u.urlType, urls))
      else if u.host.None? then Failure(MissingBucket(bucketKey, ty, urls))
      else Success((u.host.value, u.path))
    else
      var bucket :- RequiredValue(m - {"location"}, bucketKey, AsString);
      Success((bucket, location))
  }

  /** The options `get_obj_store_bucket_and_location` consumes. */
  function BucketKeysConsumed(m: map<string, string>, bucketKey: string, urls: UrlSupport): set<string> {
    if "location" in m && !IsUrl(m["location"], urls) then {"location", bucketKey} else {"location"}
  }

  /** A URL's bucket can only come from the URL: the bucket option is then never read. */
  lemma UrlIgnoresBucketOption(m: map<string, string>, ty: UrlType, bucketKey: string, bucket: string, urls: UrlSupport)
    requires "location" in m && IsUrl(m["location"], urls) && bucketKey != "location"
    ensures BucketAndLocation(m[bucketKey := bucket], ty, bucketKey, urls) == BucketAndLocation(m, ty, bucketKey, urls)
  {
  }

  /** `get_obj_store_bucket_and_location`, consuming `location` and, for a non-URL location, the bucket key. */
  method GetObjStoreBucketAndLocation(m: StatementOptions, ty: UrlType, bucketKey: string, urls: UrlSupport)
    returns (r: Result<(string, string), PlanError>)
    modifies m
    ensures r == BucketAndLocation(old(m.inner), ty, bucketKey, urls)
    ensures m.inner == old(m.inner) - BucketKeysConsumed(old(m.inner), bucketKey, urls)
  {
    var location := m.RemoveRequired("location", AsString);
    if location.Failure? {
      return Failure(location.error);
    }
    var parsed := urls.parse(location.value);
    if parsed.Success? && parsed.value.Url? {
      var u := parsed.value;
      if u.urlType != ty {
        return Failure(WrongUrlType(ty, u.urlType, urls));
      }
      if u.host.None? {
        return Failure(MissingBucket(bucketKey, ty, urls));
      }
      r := Success((u.host.value, u.path));
    } else {
      var bucket := m.RemoveRequired(bucketKey, AsString);
      if bucket.Failure? {
        return Failure(bucket.error);
      }
      r := Success((bucket.value, location.value));
    }
  }

  /** A compression variant; which names parse as one belongs to the file format crate. */
  datatype Compression = Compression(variant: string)

  /**
   * The collaborators of file type inference: `file_type_from_path` (None
   * for an error, otherwise the file type's `to_string`), the object-store
   * path's `extension`, and parsing of compression names, both as an option
   * value and as a file extension.
   */
  datatype FileTypeSupport = FileTypeSupport(
    fileTypeFromPath: string -> Option<string>,
    extension: string -> Option<string>,
    parseCompressionOption: string -> Option<Compression>,
    parseCompressionExtension: string -> Option<Compression>)

  /** The file type one listed object resolves to, with "bson" recognised by its extension. */
  function ObjectFileType(location: string, fts: FileTypeSupport): (r: Option<string>)
    ensures fts.fileTypeFromPath(location).Some? ==> r == fts.fileTypeFromPath(location)
    ensures fts.fileTypeFromPath(location).None? ==>
      r == if fts.extension(location) == Some("bson") then Some("bson") else None
  {
    match fts.fileTypeFromPath(location)
    case Some(t) => Some(t)
    case None => if fts.extension(location) == Some("bson") then Some("bson") else None
  }

  /** The file type of the last object in the listing that resolves to one. */
  function LastResolved(objects: seq<string>, fts: FileTypeSupport): Option<string> {
    if objects == [] then None
    else
      var t := ObjectFileType(objects[|objects| - 1], fts);
      if t.Some? then t else LastResolved(objects[..|objects| - 1], fts)
  }

  /**
   * `LastResolved` is the type of the last resolving object: there is one
   * exactly when some object resolves, it is that object's type, and no later
   * object resolves.
   */
  lemma {:induction false} LastResolvedIsLast(objects: seq<string>, fts: FileTypeSupport)
    ensures LastResolved(objects, fts).None? <==> forall i :: 0 <= i < |objects| ==> ObjectFileType(objects[i], fts).None?
    ensures LastResolved(objects, fts).Some? ==>
      exists i :: 0 <= i < |objects| && ObjectFileType(objects[i], fts) == LastResolved(objects, fts)
        && forall j :: i < j < |objects| ==> ObjectFileType(objects[j], fts).None?
  {
    if objects != [] {
      var n := |objects| - 1;
      var front := objects[..n];
      LastResolvedIsLast(front, fts);
      assert forall i :: 0 <= i < n ==> front[i] == objects[i];
      if ObjectFileType(objects[n], fts).None? {
        if LastResolved(front, fts).Some? {
          var i :| 0 <= i < n && ObjectFileType(front[i], fts) == LastResolved(front, fts)
            && forall j :: i < j < n ==> ObjectFileType(front[j], fts).None?;
          assert ObjectFileType(objects[i], fts) == LastResolved(objects, fts);
        }
      } else {
        assert ObjectFileType(objects[n], fts) == LastResolved(objects, fts);
      }
    }
  }

  /** The file-type loop: each object that resolves overwrites the previous result. */
  method ResolveFileType(objects: seq<string>, fts: FileTypeSupport) returns (ft: Option<string>)
    ensures ft == LastResolved(objects, fts)
  {
    ft := None;
    for i := 0 to |objects|
      invariant ft == LastResolved(objects[..i], fts)
    {
      assert objects[..i + 1][..i] == objects[..i];
      match ObjectFileType(objects[i], fts)
      case Some(t) => ft := Some(t);
      case None => continue;
    }
    assert objects[..|objects|] == objects;
  }

  function ObjectNotFound(path: string): PlanError {
    InvalidExternalTable(Internal("object '" + path + "' not found"))
  }

  const UNRESOLVED_FILE_TYPE := "unable to resolve file type from the objects, try passing `file_type` option"

  function UnresolvedFileType(): PlanError {
    InvalidExternalTable(Internal(UNRESOLVED_FILE_TYPE))
  }

  /** The compression: an explicit option wins, else the first object's extension if it names one. */
  function InferredCompression(m: map<string, string>, objects: seq<string>, fts: FileTypeSupport): (r: Result<Option<Compression>, PlanError>)
    requires objects != []
    ensures "compression" in m ==>
      r == match fts.parseCompressionOption(m["compression"])
        case Some(c) => Success(Some(c))
        case None => Failure(OptionParseError("compression", m["compression"]))
    ensures "compression" !in m ==>
      r == Success(var ext := fts.extension(objects[0]); if ext.Some? then fts.parseCompressionExtension(ext.value) else None)
  {
    var explicit :- OptionalValue(m, "compression", fts.parseCompressionOption);
    match explicit
    case Some(c) => Success(Some(c))
    case None =>
      match fts.extension(objects[0])
      case Some(ext) => Success(fts.parseCompressionExtension(ext))
      case None => Success(None)
  }

  /** The file type: an explicit option wins, else the last object that resolves; none is an error. */
  function InferredFileType(m: map<string, string>, objects: seq<string>, fts: FileTypeSupport): (r: Result<string, PlanError>)
    ensures "file_type" in m ==> r == Success(m["file_type"])
    ensures "file_type" !in m ==>
      r == if LastResolved(objects, fts).Some? then Success(LastResolved(objects, fts).value) else Failure(UnresolvedFileType())
  {
    if "file_type" in m then Success(m["file_type"])
    else
      match LastResolved(objects, fts)
      case Some(t) => Success(t)
      case None => Failure(UnresolvedFileType())
  }

  /**
   * The whole inference: a failed listing and an empty one are errors before
   * any option is read; then compression, then file type, the latter read
   * from the options left after the former.
   */
  function FileTypeAndCompression(path: string, listing: Result<seq<string>, PlanError>, m: map<string, string>, fts: FileTypeSupport): (r: Result<(string, Option<Compression>), PlanError>)
    ensures listing.Failure? ==> r == Failure(InvalidExternalTable(listing.error))
    ensures listing == Success([]) ==> r == Failure(ObjectNotFound(path))
    ensures r.Success? ==>
      listing.Success? && listing.value != []
      && InferredCompression(m, listing.value, fts) == Success(r.value.1)
      && InferredFileType(m - {"compression"}, listing.value, fts) == Success(r.value.0)
  {
    match listing
    case Failure(e) => Failure(InvalidExternalTable(e))
    case Success(objects) =>
      if objects == [] then Failure(ObjectNotFound(path))
      else
        match InferredCompression(m, objects, fts)
        case Failure(e) => Failure(e)
        case Success(compression) =>
          match InferredFileType(m - {"compression"}, objects, fts)
          case Failure(e) => Failure(e)
          case Success(fileType) => Success((fileType, compression))
  }

  /**
   * Once the listing is non-empty, the inference succeeds exactly when the
   * compression and then the file type infer, and otherwise fails with the
   * first inference's error.
   */
  lemma FileTypeAndCompressionOutcome(path: string, listing: Result<seq<string>, PlanError>, m: map<string, string>, fts: FileTypeSupport)
    requires listing.Success? && listing.value != []
    ensures InferredCompression(m, listing.value, fts).Failure? ==>
      FileTypeAndCompression(path, listing, m, fts) == Failure(InferredCompression(m, listing.value, fts).error)
    ensures InferredCompression(m, listing.value, fts).Success? && InferredFileType(m - {"compression"}, listing.value, fts).Failure? ==>
      FileTypeAndCompression(path, listing, m, fts) == Failure(UnresolvedFileType())
    ensures InferredCompression(m, listing.value, fts).Success? && InferredFileType(m - {"compression"}, listing.value, fts).Success? ==>
      FileTypeAndCompression(path, listing, m, fts)
        == Success((InferredFileType(m - {"compression"}, listing.value, fts).value, InferredCompression(m, listing.value, fts).value))
  {
  }

  /** The options the inference consumes, given how far it gets. */
  function FileTypeKeysConsumed(listing: Result<seq<string>, PlanError>, m: map<string, string>, fts: FileTypeSupport): set<string> {
    if listing.Failure? || listing.value == [] then {}
    else if InferredCompression(m, listing.value, fts).Failure? then {"compression"}
    else {"compression", "file_type"}
  }

  /**
   * `validate_and_get_file_type_and_compression`, with the outcome of
   * listing the objects at `path` (a listing error, or the objects' locations
   * in listing order) given as input.
   */
  method ValidateAndGetFileTypeAndCompression(path: string, listing: Result<seq<string>, PlanError>, m: StatementOptions, fts: FileTypeSupport)
    returns (r: Result<(string, Option<Compression>), PlanError>)
    modifies m
    ensures r == FileTypeAndCompression(path, listing, old(m.inner), fts)
    ensures m.inner == old(m.inner) - FileTypeKeysConsumed(listing, old(m.inner), fts)
  {
    if listing.Failure? {
      return Failure(InvalidExternalTable(listing.error));
    }
    var objects := listing.value;
    if objects == [] {
      return Failure(ObjectNotFound(path));
    }
    var explicit := m.RemoveOptional("compression", fts.parseCompressionOption);
    if explicit.Failure? {
      return Failure(explicit.error);
    }
    var compression: Option<Compression>;
    match explicit.value {
      case Some(c) => compression := Some(c);
      case None =>
        var ext := fts.extension(objects[0]);
        compression := if ext.Some? then fts.parseCompressionExtension(ext.value) else None;
    }
    var fileTypeOption := m.RemoveOptional("file_type", AsString);
    var fileType: string;
    match fileTypeOption.value {
      case Some(t) => fileType := t;
      case None =>
        var ft := ResolveFileType(objects, fts);
        if ft.None? {
          return Failure(UnresolvedFileType());
        }
        fileType := ft.value;
    }
    r := Success((fileType, compression));
  }
}
