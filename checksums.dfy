/** `FileChecksums` (exporter/metadata/checksums.py): the four checksums the
    ingest API records for a data file, copied as found. */
module Checksums {
  import opened Wrappers
  import opened Json

  datatype FileChecksums = FileChecksums(sha256: Json, crc32c: Json, sha1: Json, s3Etag: Json)

  /** The body of `from_dict` before its `except (KeyError, TypeError)`. */
  function ReadChecksums(data: Json): Result<FileChecksums> {
    var sha256 :- Get(data, "sha256");
    var crc32c :- Get(data, "crc32c");
    var sha1 :- Get(data, "sha1");
    var s3Etag :- Get(data, "s3_etag");
    Ok(FileChecksums(sha256, crc32c, sha1, s3Etag))
  }

  /** `FileChecksums.from_dict` */
  function FromDict(data: Json): Result<FileChecksums> {
    ConvertLookupError(ReadChecksums(data), MetadataParseException)
  }

  predicate HasChecksumKeys(data: Json) {
    data.JObj? && "sha256" in data.fields && "crc32c" in data.fields
    && "sha1" in data.fields && "s3_etag" in data.fields
  }

  /** `from_dict` succeeds exactly on a dict holding the four keys and copies
      their values; any other input is a MetadataParseException. */
  lemma FromDictSpec(data: Json)
    ensures FromDict(data).Ok? <==> HasChecksumKeys(data)
    ensures FromDict(data).Ok? ==>
      FromDict(data).value ==
        FileChecksums(data.fields["sha256"], data.fields["crc32c"], data.fields["sha1"], data.fields["s3_etag"])
    ensures FromDict(data).Err? ==> FromDict(data).error == MetadataParseException
  {
  }

  /** The checksums as the ingest API lays them out. */
  function ChecksumsJson(c: FileChecksums): Json {
    JObj(map["sha256" := c.sha256, "crc32c" := c.crc32c, "sha1" := c.sha1, "s3_etag" := c.s3Etag])
  }

  /** Reading back what the API layout holds gives the same checksums. */
  lemma FromDictOfJson(c: FileChecksums)
    ensures FromDict(ChecksumsJson(c)) == Ok(c)
  {
  }

  /** Keys other than the four are ignored. */
  lemma FromDictIgnoresExtraKeys(data: Json, key: string, value: Json)
    requires HasChecksumKeys(data)
    requires key !in {"sha256", "crc32c", "sha1", "s3_etag"}
    ensures FromDict(JObj(data.fields[key := value])) == FromDict(data)
  {
  }
}
