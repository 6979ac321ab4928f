/** `DataFile` (exporter/metadata/datafile.py): a data file described by a
    file metadata document, and where its bytes are in cloud storage. */
module DataFiles {
  import opened Wrappers
  import opened Json
  import opened Strings
  import Resource
  import Checksums

  datatype DataFile = DataFile(
    uuid: Json,
    dcpVersion: string,
    fileName: Json,
    cloudUrl: Json,
    contentType: Json,
    size: Json,
    checksums: Checksums.FileChecksums)

  /** The host part of `cloud_url`: the text between its first "//" and the
      next "/" (or the next "//").  No "//" at all is an IndexError, a
      non-string URL an AttributeError. */
  function SourceBucket(d: DataFile): Result<string> {
    if !d.cloudUrl.JStr? then Err(AttributeError)
    else
      var parts := Split(d.cloudUrl.s, "//");
      if |parts| < 2 then Err(IndexError)
      else Ok(Split(parts[1], "/")[0])
  }

  /** The path part of `cloud_url`: what follows the first "/" after the
      first "//", up to the next "//".  A URL with no "/" after its host is
      an IndexError. */
  function SourceKey(d: DataFile): Result<string> {
    if !d.cloudUrl.JStr? then Err(AttributeError)
    else
      var parts := Split(d.cloudUrl.s, "//");
      if |parts| < 2 then Err(IndexError)
      else
        var hostAndPath := SplitOnce(parts[1], "/");
        if |hostAndPath| < 2 then Err(IndexError) else Ok(hostAndPath[1])
  }

  function WithUrl(url: string): DataFile {
    DataFile(JNull, "", JNull, JStr(url), JNull, JNull, Checksums.FileChecksums(JNull, JNull, JNull, JNull))
  }

  /** A storage URL `scheme//bucket/key` yields its bucket and its key back,
      provided the key holds no "//" (see `SourceKeyDoubleSlash`). */
  lemma SourceOfUrl(d: DataFile, scheme: string, bucket: string, key: string)
    requires '/' !in scheme && '/' !in bucket && !Contains("/" + key, "//")
    requires d.cloudUrl == JStr(scheme + "//" + bucket + "/" + key)
    ensures SourceBucket(d) == Ok(bucket)
    ensures SourceKey(d) == Ok(key)
  {
    UrlSplit(scheme, bucket, key);
  }

  /** A URL without "//" has neither bucket nor key. */
  lemma SourceOfUrlWithoutScheme(d: DataFile)
    requires d.cloudUrl.JStr? && !Contains(d.cloudUrl.s, "//")
    ensures SourceBucket(d) == Err(IndexError) && SourceKey(d) == Err(IndexError)
  {
    SplitFree(d.cloudUrl.s, "//");
  }

  lemma ExampleTopLevelFile()
    ensures SourceBucket(WithUrl("s3://test-bucket/somefile.txt")) == Ok("test-bucket")
    ensures SourceKey(WithUrl("s3://test-bucket/somefile.txt")) == Ok("somefile.txt")
  {
    assert "s3://test-bucket/somefile.txt" == "s3:" + "//" + "test-bucket" + "/" + "somefile.txt";
    assert NoDoubleSlash("/" + "somefile.txt");
    NoDoubleSlashContains("/" + "somefile.txt");
    SourceOfUrl(WithUrl("s3://test-bucket/somefile.txt"), "s3:", "test-bucket", "somefile.txt");
  }

  lemma NestedKeyFree()
    ensures !Contains("/" + "somedir/somesubdir/somefile.txt", "//")
  {
    assert NoDoubleSlash("/" + "somedir/somesubdir/somefile.txt");
    NoDoubleSlashContains("/" + "somedir/somesubdir/somefile.txt");
  }

  lemma NestedUrlPrefix()
    ensures "s3://test-bucket/" == "s3:" + "//" + "test-bucket" + "/"
  {
  }

  lemma NestedUrlKey()
    ensures "s3://test-bucket/somedir/somesubdir/somefile.txt" == "s3://test-bucket/" + "somedir/somesubdir/somefile.txt"
  {
  }

  lemma NestedUrl()
    ensures "s3://test-bucket/somedir/somesubdir/somefile.txt"
      == "s3:" + "//" + "test-bucket" + "/" + "somedir/somesubdir/somefile.txt"
  {
    NestedUrlPrefix();
    NestedUrlKey();
  }

  lemma ExampleNestedFile()
    ensures SourceKey(WithUrl("s3://test-bucket/somedir/somesubdir/somefile.txt")) == Ok("somedir/somesubdir/somefile.txt")
  {
    NestedKeyFree();
    NestedUrl();
    SourceOfUrl(WithUrl("s3://test-bucket/somedir/somesubdir/somefile.txt"), "s3:", "test-bucket", "somedir/somesubdir/somefile.txt");
  }

  lemma DoubleSlashFirstSplit(url: string)
    requires url == "s3://b/dir//file"
    ensures Split(url, "//") == ["s3:"] + Split("b/dir//file", "//")
  {
    assert url[..3] == "s3:";
    NoOccurrenceInPrefix(url, "s3:", "//");
    assert url[3..5] == "//";
    SplitAtFirst(url, "//", 3);
    assert url[5..] == "b/dir//file";
  }

  lemma DoubleSlashSecondSplit(rest: string)
    requires rest == "b/dir//file"
    ensures Split(rest, "//")[0] == "b/dir"
  {
    assert rest[..5] == "b/dir";
    assert rest[0..2] == "b/" && rest[1..3] == "/d" && rest[2..4] == "di" && rest[3..5] == "ir" && rest[4..6] == "r/";
    assert rest[5..7] == "//";
    SplitAtFirst(rest, "//", 5);
  }

  lemma DoubleSlashHostSplit(hostAndPath: string)
    requires hostAndPath == "b/dir"
    ensures SplitOnce(hostAndPath, "/") == ["b", "dir"]
  {
    assert hostAndPath[1..2] == "/";
    assert hostAndPath[0..1] == "b";
    SplitAtFirst(hostAndPath, "/", 1);
  }

  /** A key holding "//" is cut at it: the URL is split at every "//" and
      only the second piece is kept. */
  lemma SourceKeyDoubleSlash()
    ensures SourceKey(WithUrl("s3://b/dir//file")) == Ok("dir")
  {
    DoubleSlashFirstSplit("s3://b/dir//file");
    DoubleSlashSecondSplit("b/dir//file");
    DoubleSlashHostSplit("b/dir");
  }

  /** The body of `from_file_metadata` before its `except`. */
  function ReadDataFile(m: Resource.MetadataResource): Result<DataFile> {
    var full := m.fullResource;
    var uuid :- Get(full, "dataFileUuid");
    var fileName :- Get(full, "fileName");
    var cloudUrl :- Get(full, "cloudUrl");
    var contentType :- Get(full, "fileContentType");
    var size :- Get(full, "size");
    var checksumsJson :- Get(full, "checksums");
    var checksums :- Checksums.FromDict(checksumsJson);
    Ok(DataFile(uuid, m.dcpVersion, fileName, cloudUrl, contentType, size, checksums))
  }

  /** `DataFile.from_file_metadata`: a resource without a full document is a
      MetadataParseException, and so is any missing key. */
  function FromFileMetadata(m: Resource.MetadataResource): Result<DataFile> {
    if m.fullResource.JNull? then Err(MetadataParseException)
    else ConvertLookupError(ReadDataFile(m), MetadataParseException)
  }

  predicate HasDataFileKeys(full: Json) {
    full.JObj? && "dataFileUuid" in full.fields && "fileName" in full.fields
    && "cloudUrl" in full.fields && "fileContentType" in full.fields && "size" in full.fields
    && "checksums" in full.fields && Checksums.HasChecksumKeys(full.fields["checksums"])
  }

  /** The data file's fields come from the full document, its version from
      the resource's normalised dcp version; every failure is a
      MetadataParseException. */
  lemma FromFileMetadataSpec(m: Resource.MetadataResource)
    ensures FromFileMetadata(m).Ok? <==> HasDataFileKeys(m.fullResource)
    ensures FromFileMetadata(m).Err? ==> FromFileMetadata(m).error == MetadataParseException
    ensures FromFileMetadata(m).Ok? ==>
      var d := FromFileMetadata(m).value;
      var f := m.fullResource.fields;
      && d.uuid == f["dataFileUuid"] && d.dcpVersion == m.dcpVersion && d.fileName == f["fileName"]
      && d.cloudUrl == f["cloudUrl"] && d.contentType == f["fileContentType"] && d.size == f["size"]
      && Checksums.FromDict(f["checksums"]) == Ok(d.checksums)
  {
    Checksums.FromDictSpec(if m.fullResource.JObj? && "checksums" in m.fullResource.fields
      then m.fullResource.fields["checksums"] else JNull);
  }
}
