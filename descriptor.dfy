/** `FileDescriptor` (exporter/metadata/descriptor.py): the descriptor
    document written next to each exported data file. */
module Descriptors {
  import opened Wrappers
  import opened Json
  import opened Strings
  import Checksums
  import DataFiles
  import Resource

  datatype FileDescriptor = FileDescriptor(
    fileUuid: Json,
    fileVersion: string,
    fileName: Json,
    contentType: Json,
    size: Json,
    checksums: Checksums.FileChecksums)

  /** `x.lower() if x else x`: a falsy value is kept, a truthy string is
      lower-cased, and any other truthy value has no `lower`. */
  function LowerIfSet(x: Json): (r: Result<Json>)
    ensures !Truthy(x) ==> r == Ok(x)
    ensures Truthy(x) && x.JStr? ==> r == Ok(JStr(Lower(x.s)))
    ensures Truthy(x) && !x.JStr? ==> r == Err(AttributeError)
  {
    if !Truthy(x) then Ok(x)
    else if x.JStr? then Ok(JStr(Lower(x.s)))
    else Err(AttributeError)
  }

  /** `str(x).lower() if x else x` for the scalars whose `str` is modelled;
      a truthy list or dict is refused. */
  function StrLowerIfSet(x: Json): (r: Result<Json>)
    ensures !Truthy(x) ==> r == Ok(x)
    ensures Truthy(x) && PyStr(x).Some? ==> r == Ok(JStr(Lower(PyStr(x).value)))
  {
    if !Truthy(x) then Ok(x)
    else match PyStr(x)
      case Some(s) => Ok(JStr(Lower(s)))
      case None => Err(TypeError)
  }

  /** `to_dict` */
  function ToDict(d: FileDescriptor): Result<Json> {
    var sha1 :- LowerIfSet(d.checksums.sha1);
    var sha256 :- LowerIfSet(d.checksums.sha256);
    var crc32c :- StrLowerIfSet(d.checksums.crc32c);
    Ok(JObj(map[
      "file_id" := d.fileUuid,
      "file_version" := JStr(d.fileVersion),
      "file_name" := d.fileName,
      "content_type" := d.contentType,
      "size" := d.size,
      "sha1" := sha1,
      "sha256" := sha256,
      "crc32c" := crc32c,
      "s3_etag" := d.checksums.s3Etag,
      "schema_type" := JStr("file_descriptor")]))
  }

  /** A checksum value as it appears in a descriptor: unset, or a string
      without upper-case letters. */
  predicate LowerChecksum(x: Json) {
    !Truthy(x) || (x.JStr? && Lower(x.s) == x.s)
  }

  const DescriptorKeys: set<string> := {"file_id", "file_version", "file_name", "content_type", "size",
    "sha1", "sha256", "crc32c", "s3_etag", "schema_type"}

  /** `to_dict` has exactly the ten descriptor keys, copies the identity,
      name, type, size and etag, marks the document a "file_descriptor",
      and leaves the three hashes lower-cased or unset.  It fails only when
      sha1 or sha256 is a truthy non-string, or crc32c a truthy list or
      dict. */
  lemma ToDictSpec(d: FileDescriptor)
    ensures ToDict(d).Ok? <==>
      (!Truthy(d.checksums.sha1) || d.checksums.sha1.JStr?)
      && (!Truthy(d.checksums.sha256) || d.checksums.sha256.JStr?)
      && (!Truthy(d.checksums.crc32c) || PyStr(d.checksums.crc32c).Some?)
    ensures ToDict(d).Ok? ==>
      var m := ToDict(d).value.fields;
      && ToDict(d).value.JObj? && m.Keys == DescriptorKeys
      && m["file_id"] == d.fileUuid && m["file_version"] == JStr(d.fileVersion)
      && m["file_name"] == d.fileName && m["content_type"] == d.contentType && m["size"] == d.size
      && m["s3_etag"] == d.checksums.s3Etag && m["schema_type"] == JStr("file_descriptor")
      && LowerChecksum(m["sha1"]) && LowerChecksum(m["sha256"]) && LowerChecksum(m["crc32c"])
  {
    var c := d.checksums;
    if Truthy(c.sha1) && c.sha1.JStr? { LowerIdempotent(c.sha1.s); }
    if Truthy(c.sha256) && c.sha256.JStr? { LowerIdempotent(c.sha256.s); }
    if Truthy(c.crc32c) && PyStr(c.crc32c).Some? { LowerIdempotent(PyStr(c.crc32c).value); }
    if ToDict(d).Ok? {
      assert ToDict(d).value.fields.Keys == DescriptorKeys;
    }
  }

  /** The descriptor made again from a descriptor document's own checksums
      is the same document: `to_dict` is idempotent on its hashes. */
  lemma ToDictIdempotent(d: FileDescriptor)
    requires ToDict(d).Ok?
    ensures var m := ToDict(d).value.fields;
      ToDict(d.(checksums := Checksums.FileChecksums(m["sha256"], m["crc32c"], m["sha1"], d.checksums.s3Etag)))
        == ToDict(d)
  {
    var c := d.checksums;
    LowerIfSetIdempotent(c.sha1);
    LowerIfSetIdempotent(c.sha256);
    StrLowerIfSetIdempotent(c.crc32c);
    ToDictHashes(d);
  }

  lemma ToDictHashes(d: FileDescriptor)
    requires ToDict(d).Ok?
    ensures var m := ToDict(d).value.fields;
      && m["sha1"] == LowerIfSet(d.checksums.sha1).value
      && m["sha256"] == LowerIfSet(d.checksums.sha256).value
      && m["crc32c"] == StrLowerIfSet(d.checksums.crc32c).value
  {
  }

  lemma LowerIfSetIdempotent(x: Json)
    ensures LowerIfSet(x).Ok? ==> LowerIfSet(LowerIfSet(x).value) == LowerIfSet(x)
  {
    if Truthy(x) && x.JStr? { LowerIdempotent(x.s); }
  }

  lemma StrLowerIfSetIdempotent(x: Json)
    ensures StrLowerIfSet(x).Ok? ==> StrLowerIfSet(StrLowerIfSet(x).value) == StrLowerIfSet(x)
  {
    if Truthy(x) && PyStr(x).Some? { LowerIdempotent(PyStr(x).value); }
  }

  /** `from_file_metadata` */
  function FromFileMetadata(m: Resource.MetadataResource): Result<FileDescriptor> {
    var dataFile :- DataFiles.FromFileMetadata(m);
    Ok(FileDescriptor(dataFile.uuid, m.dcpVersion, dataFile.fileName, dataFile.contentType,
      dataFile.size, dataFile.checksums))
  }

  /** The descriptor is the data file's, versioned by the resource's dcp
      version, and fails exactly when the data file cannot be read. */
  lemma FromFileMetadataSpec(m: Resource.MetadataResource)
    ensures FromFileMetadata(m).Ok? <==> DataFiles.FromFileMetadata(m).Ok?
    ensures FromFileMetadata(m).Err? ==> FromFileMetadata(m).error == MetadataParseException
    ensures FromFileMetadata(m).Ok? ==>
      var d := FromFileMetadata(m).value;
      var f := DataFiles.FromFileMetadata(m).value;
      && d.fileUuid == f.uuid && d.fileVersion == m.dcpVersion && d.fileName == f.fileName
      && d.contentType == f.contentType && d.size == f.size && d.checksums == f.checksums
  {
    DataFiles.FromFileMetadataSpec(m);
  }

  /** An upper-case crc32c read from the API reaches the descriptor lower-cased. */
  lemma ExampleCrcLowered(d: FileDescriptor)
    requires d.checksums == Checksums.FileChecksums(JNull, JStr("AB12"), JNull, JNull)
    ensures ToDict(d).Ok? && ToDict(d).value.fields["crc32c"] == JStr("ab12")
  {
  }
}
