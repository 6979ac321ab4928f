/** `SpreadsheetExporter` (exporter/terra/spreadsheet/exporter.py): fetches
    the submission's workbook and its project, describes the saved
    spreadsheet as a supplementary file of the project, and writes that
    record, the link from the project to it and the spreadsheet itself to
    the staging bucket.  Any failure is reported as `SpreadsheetExportError`. */
module SpreadsheetExporters {
  import opened Wrappers
  import opened Json
  import opened Strings
  import opened Effects
  import opened OrderedMaps
  import opened GraphEntities
  import GcsStorages
  import Resource
  import Provenance
  import Dates
  import LinkSets
  import ExperimentGraphs
  import TerraStorages
  import IngestServices

  /** The workbook once saved to the temporary file, with what the source
      computes from its bytes (`hashlib`, `crc32c`) and the two `uuid4`
      values it draws; the digests and the uuids are inputs here. */
  datatype SavedSpreadsheet = SavedSpreadsheet(
    bytes: seq<bv8>,
    sha256: string,
    sha1: string,
    crc32c: bv32,
    dataFileUuid: string,
    fileUuid: string)

  /** `get_latest_schema_url('type', 'file', 'supplementary_file')` */
  const SchemaCall: Call := GetLatestSchemaUrl("type", "file", "supplementary_file")

  /** 'metadata_{project uuid}.xlsx' */
  function FileName(projectUuid: string): string {
    "metadata_" + projectUuid + ".xlsx"
  }

  /** f'{crc:08x}' of a 32-bit checksum. */
  function CrcText(crc: bv32): string {
    Pow16Eight();
    PadHex(crc as nat, 8)
  }

  lemma Pow16Eight()
    ensures Pow16(8) == 0x1_0000_0000
  {
  }

  /** The one entry of `content_description`. */
  const ContentDescription: Json := JArr([JObj(map[
    "text" := JStr("metadata spreadsheet"),
    "ontology" := JStr("data:2193"),
    "ontology_label" := JStr("Database entry metadata")])])

  /** `file_core` of the record. */
  function FileCore(filename: string): Json {
    JObj(map[
      "file_name" := JStr(filename),
      "format" := JStr("xlsx"),
      "file_source" := JStr("DCP/2 Ingest"),
      "content_description" := ContentDescription])
  }

  /** The `content` of the record. */
  function FileContent(schemaUrl: Json, filename: string): Json {
    JObj(map[
      "describedBy" := schemaUrl,
      "schema_type" := JStr("file"),
      "file_core" := FileCore(filename)])
  }

  /** The entries of the dict `create_supplementary_file_metadata` passes
      to `from_dict`, given the schema url and the project's two dates. */
  function FileEntries(project: Resource.MetadataResource, schemaUrl: Json, saved: SavedSpreadsheet,
                       submissionDate: Json, updateDate: Json): seq<(string, Json)>
  {
    var filename := FileName(project.uuid);
    [ ("fileName", JStr(filename)),
      ("dataFileUuid", JStr(saved.dataFileUuid)),
      ("cloudUrl", JNull),
      ("fileContentType", JStr("xlsx")),
      ("size", JInt(|saved.bytes|)),
      ("checksums", JObj(map[
        "sha256" := JStr(saved.sha256),
        "crc32c" := JStr(CrcText(saved.crc32c)),
        "sha1" := JStr(saved.sha1),
        "s3_etag" := JStr("n/a - not in s3")])),
      ("uuid", JObj(map["uuid" := JStr(saved.fileUuid)])),
      ("dcpVersion", JStr(project.dcpVersion)),
      ("type", JStr("file")),
      ("submissionDate", submissionDate),
      ("updateDate", updateDate),
      ("content", FileContent(schemaUrl, filename)) ]
  }

  /** That dict. */
  function FileRecord(project: Resource.MetadataResource, schemaUrl: Json, saved: SavedSpreadsheet,
                      submissionDate: Json, updateDate: Json): Json
  {
    JObj(DictOf(FileEntries(project, schemaUrl, saved, submissionDate, updateDate)))
  }

  /** What `create_supplementary_file_metadata` does, given how the schema
      call goes: the call, then the two date lookups on the project, then
      `from_dict`. */
  function CreateFileMetadata(saved: SavedSpreadsheet, project: Resource.MetadataResource, env: Env)
    : Fetched<Resource.MetadataResource>
  {
    var schemaUrl := Outcome(SchemaCall, env);
    Fetched([SchemaCall],
      if schemaUrl.Err? then Err(schemaUrl.error)
      else
        match Get(project.fullResource, "submissionDate")
        case Err(e) => Err(e)
        case Ok(submissionDate) =>
          match Get(project.fullResource, "updateDate")
          case Err(e) => Err(e)
          case Ok(updateDate) => Resource.FromDict(FileRecord(project, schemaUrl.value, saved, submissionDate, updateDate)))
  }

  // ------------------------------------------------------------ the record

  /** The checksum is written as exactly eight lower-case hexadecimal
      digits, zero-padded, that read back as the checksum. */
  lemma CrcTextSpec(crc: bv32)
    ensures |CrcText(crc)| == 8
    ensures forall i :: 0 <= i < 8 ==> IsLowerHex(CrcText(crc)[i])
    ensures HexDigitsValue(CrcText(crc)) == crc as nat
  {
    Pow16Eight();
    PadHexValue(crc as nat, 8);
  }

  /** The record reads exactly when the schema url is a string naming a
      version and the project's version parses again; the resource read
      from it is a "file" with the drawn uuid, the whole record as its
      document, the content under "content", the project's dates in its
      provenance, and the type named by the schema url. */
  lemma FileRecordRead(project: Resource.MetadataResource, schemaUrl: Json, saved: SavedSpreadsheet,
                       submissionDate: Json, updateDate: Json)
    ensures var record := FileRecord(project, schemaUrl, saved, submissionDate, updateDate);
      Resource.FromDict(record).Ok? <==>
        && schemaUrl.JStr? && Provenance.FirstSemver(schemaUrl.s).Some?
        && Dates.ToDcpVersion(project.dcpVersion).Ok?
    ensures var record := FileRecord(project, schemaUrl, saved, submissionDate, updateDate);
      Resource.FromDict(record).Ok? ==>
        var file := Resource.FromDict(record).value;
        && file.metadataType == "file"
        && Dates.ToDcpVersion(project.dcpVersion) == Ok(file.dcpVersion)
        && file.uuid == saved.fileUuid
        && file.fullResource == record
        && file.metadataJson == FileContent(schemaUrl, FileName(project.uuid))
        && file.provenance.documentId == JStr(saved.fileUuid)
        && file.provenance.submissionDate == submissionDate
        && file.provenance.updateDate == updateDate
        && Resource.ConcreteType(file) == Ok(LastSegment(schemaUrl.s))
  {
    FileRecordReadKeys(project, schemaUrl, saved, submissionDate, updateDate);
    ReadFileEntries(FileRecord(project, schemaUrl, saved, submissionDate, updateDate),
      FileContent(schemaUrl, FileName(project.uuid)), schemaUrl, FileName(project.uuid), saved.fileUuid, project.dcpVersion,
      submissionDate, updateDate);
  }

  lemma LowerFile()
    ensures Lower("file") == "file"
  {
    assert forall i :: 0 <= i < 4 ==> Lower("file")[i] == "file"[i];
  }

  /** `from_dict` on any dict holding those entries. */
  lemma ReadFileEntries(record: Json, content: Json, schemaUrl: Json, fileName: string, fileUuid: string,
                        dcpVersion: string, submissionDate: Json, updateDate: Json)
    requires record.JObj? && content == FileContent(schemaUrl, fileName)
    requires var d := record.fields;
      && "content" in d && d["content"] == content
      && "uuid" in d && d["uuid"] == JObj(map["uuid" := JStr(fileUuid)])
      && "dcpVersion" in d && d["dcpVersion"] == JStr(dcpVersion)
      && "type" in d && d["type"] == JStr("file")
      && "submissionDate" in d && d["submissionDate"] == submissionDate
      && "updateDate" in d && d["updateDate"] == updateDate
    ensures Resource.FromDict(record).Ok? <==>
      schemaUrl.JStr? && Provenance.FirstSemver(schemaUrl.s).Some? && Dates.ToDcpVersion(dcpVersion).Ok?
    ensures Resource.FromDict(record).Ok? ==>
      var file := Resource.FromDict(record).value;
      && file.metadataType == "file" && file.uuid == fileUuid && file.fullResource == record
      && Dates.ToDcpVersion(dcpVersion) == Ok(file.dcpVersion)
      && file.metadataJson == content
      && file.provenance.documentId == JStr(fileUuid)
      && file.provenance.submissionDate == submissionDate
      && file.provenance.updateDate == updateDate
      && Resource.ConcreteType(file) == Ok(LastSegment(schemaUrl.s))
  {
    assert content.fields["describedBy"] == schemaUrl;
    Resource.ReadResourceOk(record);
    Provenance.FromDictErrors(record);
    assert Resource.HasResourceKeys(record);
    if Resource.FromDict(record).Ok? {
      Resource.FromDictFields(record);
      Provenance.FromDictFields(record);
      Resource.ConcreteTypeOfRead(record);
      LowerFile();
    }
  }

  /** Every entry of the record is the last with its key, so the record
      maps each key to its entry's value. */
  lemma FileRecordEntry(project: Resource.MetadataResource, schemaUrl: Json, saved: SavedSpreadsheet,
                        submissionDate: Json, updateDate: Json, i: nat)
    requires i < 12
    ensures var es := FileEntries(project, schemaUrl, saved, submissionDate, updateDate);
      var d := FileRecord(project, schemaUrl, saved, submissionDate, updateDate).fields;
      |es| == 12 && es[i].0 in d && d[es[i].0] == es[i].1
  {
    var es := FileEntries(project, schemaUrl, saved, submissionDate, updateDate);
    var keys := ["fileName", "dataFileUuid", "cloudUrl", "fileContentType", "size", "checksums", "uuid",
                 "dcpVersion", "type", "submissionDate", "updateDate", "content"];
    assert forall j :: 0 <= j < 12 ==> es[j].0 == keys[j];
    assert forall j :: i < j < 12 ==> keys[j] != keys[i];
    DictOfLast(es, i);
  }

  /** The record's fixed fields: the file name, the content type, the
      missing cloud url, the size of the saved bytes and the project's
      version. */
  lemma FileRecordFields(project: Resource.MetadataResource, schemaUrl: Json, saved: SavedSpreadsheet,
                         submissionDate: Json, updateDate: Json)
    ensures var d := FileRecord(project, schemaUrl, saved, submissionDate, updateDate).fields;
      && {"fileName", "fileContentType", "cloudUrl", "size", "dcpVersion"} <= d.Keys
      && d["fileName"] == JStr("metadata_" + project.uuid + ".xlsx")
      && d["fileContentType"] == JStr("xlsx") && d["cloudUrl"] == JNull
      && d["size"] == JInt(|saved.bytes|)
      && d["dcpVersion"] == JStr(project.dcpVersion)
  {
    FileRecordNames(project, schemaUrl, saved, submissionDate, updateDate);
    FileRecordHas(project, schemaUrl, saved, submissionDate, updateDate, 4, "size", JInt(|saved.bytes|));
    FileRecordHas(project, schemaUrl, saved, submissionDate, updateDate, 7, "dcpVersion", JStr(project.dcpVersion));
  }

  lemma FileRecordNames(project: Resource.MetadataResource, schemaUrl: Json, saved: SavedSpreadsheet,
                        submissionDate: Json, updateDate: Json)
    ensures var d := FileRecord(project, schemaUrl, saved, submissionDate, updateDate).fields;
      && "fileName" in d && d["fileName"] == JStr("metadata_" + project.uuid + ".xlsx")
      && "fileContentType" in d && d["fileContentType"] == JStr("xlsx")
      && "cloudUrl" in d && d["cloudUrl"] == JNull
  {
    FileRecordHas(project, schemaUrl, saved, submissionDate, updateDate, 0, "fileName", JStr(FileName(project.uuid)));
    FileRecordHas(project, schemaUrl, saved, submissionDate, updateDate, 2, "cloudUrl", JNull);
    FileRecordHas(project, schemaUrl, saved, submissionDate, updateDate, 3, "fileContentType", JStr("xlsx"));
  }

  lemma FileRecordHas(project: Resource.MetadataResource, schemaUrl: Json, saved: SavedSpreadsheet,
                      submissionDate: Json, updateDate: Json, i: nat, k: string, v: Json)
    requires i < 12 && FileEntries(project, schemaUrl, saved, submissionDate, updateDate)[i] == (k, v)
    ensures var d := FileRecord(project, schemaUrl, saved, submissionDate, updateDate).fields;
      k in d && d[k] == v
  {
    FileRecordEntry(project, schemaUrl, saved, submissionDate, updateDate, i);
  }

  /** The checksums: the two digests as given, the checksum as eight
      lower-case hexadecimal digits that read back as it, and the
      placeholder S3 etag. */
  lemma FileRecordChecksums(project: Resource.MetadataResource, schemaUrl: Json, saved: SavedSpreadsheet,
                            submissionDate: Json, updateDate: Json)
    ensures var d := FileRecord(project, schemaUrl, saved, submissionDate, updateDate).fields;
      "checksums" in d && d["checksums"].JObj? &&
      var c := d["checksums"].fields;
      && c.Keys == {"sha256", "crc32c", "sha1", "s3_etag"}
      && c["sha256"] == JStr(saved.sha256) && c["sha1"] == JStr(saved.sha1)
      && c["s3_etag"] == JStr("n/a - not in s3")
      && c["crc32c"].JStr? && |c["crc32c"].s| == 8 && (forall i :: 0 <= i < 8 ==> IsLowerHex(c["crc32c"].s[i]))
      && HexDigitsValue(c["crc32c"].s) == saved.crc32c as nat
  {
    FileRecordEntry(project, schemaUrl, saved, submissionDate, updateDate, 5);
    var c := FileRecord(project, schemaUrl, saved, submissionDate, updateDate).fields["checksums"];
    assert c.fields["crc32c"] == JStr(CrcText(saved.crc32c));
    CrcTextSpec(saved.crc32c);
  }

  /** `file_core` names the file, with format 'xlsx', source 'DCP/2 Ingest'
      and the fixed description. */
  lemma FileRecordCore(project: Resource.MetadataResource, schemaUrl: Json, saved: SavedSpreadsheet,
                       submissionDate: Json, updateDate: Json)
    ensures var d := FileRecord(project, schemaUrl, saved, submissionDate, updateDate).fields;
      && "content" in d && d["content"] == FileContent(schemaUrl, FileName(project.uuid))
      && d["content"].fields["describedBy"] == schemaUrl
      && d["content"].fields["schema_type"] == JStr("file")
      && var core := d["content"].fields["file_core"].fields;
         && core["file_name"] == JStr(FileName(project.uuid)) && core["format"] == JStr("xlsx")
         && core["file_source"] == JStr("DCP/2 Ingest")
         && core["content_description"] == ContentDescription
  {
    FileRecordEntry(project, schemaUrl, saved, submissionDate, updateDate, 11);
  }

  /** The entries `from_dict` reads. */
  lemma FileRecordReadKeys(project: Resource.MetadataResource, schemaUrl: Json, saved: SavedSpreadsheet,
                           submissionDate: Json, updateDate: Json)
    ensures var d := FileRecord(project, schemaUrl, saved, submissionDate, updateDate).fields;
      && "content" in d && d["content"] == FileContent(schemaUrl, FileName(project.uuid))
      && "uuid" in d && d["uuid"] == JObj(map["uuid" := JStr(saved.fileUuid)])
      && "dcpVersion" in d && d["dcpVersion"] == JStr(project.dcpVersion)
      && "type" in d && d["type"] == JStr("file")
      && "submissionDate" in d && d["submissionDate"] == submissionDate
      && "updateDate" in d && d["updateDate"] == updateDate
  {
    FileRecordEntry(project, schemaUrl, saved, submissionDate, updateDate, 6);
    FileRecordEntry(project, schemaUrl, saved, submissionDate, updateDate, 7);
    FileRecordEntry(project, schemaUrl, saved, submissionDate, updateDate, 8);
    FileRecordEntry(project, schemaUrl, saved, submissionDate, updateDate, 9);
    FileRecordEntry(project, schemaUrl, saved, submissionDate, updateDate, 10);
    FileRecordEntry(project, schemaUrl, saved, submissionDate, updateDate, 11);
  }

  /** A project read by `from_dict` from a version with a year from 1000 on
      keeps its version through the file's own `from_dict`: the file's
      `dcp_version` is the project's. */
  lemma FileVersionIsProjects(project: Resource.MetadataResource, raw: string, schemaUrl: Json,
                              saved: SavedSpreadsheet, submissionDate: Json, updateDate: Json)
    requires Dates.ToDcpVersion(raw) == Ok(project.dcpVersion) && Dates.Fields(raw).year >= 1000
    ensures var file := Resource.FromDict(FileRecord(project, schemaUrl, saved, submissionDate, updateDate));
      file.Ok? ==> file.value.dcpVersion == project.dcpVersion
  {
    Dates.ToDcpVersionIdempotent(raw);
    FileRecordRead(project, schemaUrl, saved, submissionDate, updateDate);
  }

  /** The schema call comes first and its failure is the result; then the
      project's dates are read, a missing one raising KeyError; then the
      record. */
  lemma CreateFileMetadataSpec(saved: SavedSpreadsheet, project: Resource.MetadataResource, env: Env)
    ensures var f := CreateFileMetadata(saved, project, env);
      && f.trace == [SchemaCall]
      && (SchemaCall in env.failures ==> f.value == Err(env.failures[SchemaCall]))
      && (SchemaCall !in env.failures && Resource.FromApi(project) ==>
            && (f.value.Ok? <==> (Provenance.HasProvenanceKeys(project.fullResource) &&
                  Resource.FromDict(FileRecord(project, Outcome(SchemaCall, env).value, saved,
                    project.fullResource.fields["submissionDate"], project.fullResource.fields["updateDate"])).Ok?))
            && (f.value.Ok? ==> f.value == Resource.FromDict(FileRecord(project, Outcome(SchemaCall, env).value, saved,
                    project.fullResource.fields["submissionDate"], project.fullResource.fields["updateDate"]))))
  {
  }

  // ---------------------------------------------------------------- writes

  /** `link_set.to_dict()` of the graph holding the one supplementary link. */
  function SupplementaryLinksDict(link: SupplementaryFileLink): Json {
    JObj(map["links" := JArr([SupplementaryLinkToDict(link)])])
  }

  /** `write_links`: the link from the project to the file, written under
      the file's uuid and version. */
  function LinksSteps(file: Resource.MetadataResource, project: Resource.MetadataResource,
                      config: TerraStorages.StorageConfig): seq<Step>
  {
    match ExperimentGraphs.SupplementaryFileLinkFor(SupplementaryFilesInfo(project, [file]))
    case Err(e) => [Raise(e)]
    case Ok(link) => TerraStorages.LinksSteps(SupplementaryLinksDict(link), file.uuid, file.dcpVersion, project.uuid, config)
  }

  /** The upload of the spreadsheet's bytes at
      '{project uuid}/data/{fileName}'. */
  function DataSteps(file: Resource.MetadataResource, project: Resource.MetadataResource, bytes: seq<bv8>,
                     config: TerraStorages.StorageConfig): seq<Step>
  {
    match Get(file.fullResource, "fileName")
    case Err(e) => [Raise(e)]
    case Ok(name) => [Do(TerraStorages.StagingCall(config, project.uuid + "/data/" + PyStrText(name), GcsStorages.Bytes(bytes)))]
  }

  /** `write_to_terra`: the metadata, the link, then the data. */
  function WriteToTerraSteps(file: Resource.MetadataResource, project: Resource.MetadataResource, bytes: seq<bv8>,
                             config: TerraStorages.StorageConfig): seq<Step>
  {
    TerraStorages.MetadataSteps(file, project.uuid, config)
    + LinksSteps(file, project, config)
    + DataSteps(file, project, bytes, config)
  }

  /** The link written is the one from the project, under its concrete type
      and uuid, to the file alone, under the file's concrete type and uuid;
      it is written exactly when both types can be read. */
  lemma LinksStepsSpec(file: Resource.MetadataResource, project: Resource.MetadataResource,
                       config: TerraStorages.StorageConfig)
    ensures var link := ExperimentGraphs.SupplementaryFileLinkFor(SupplementaryFilesInfo(project, [file]));
      && (link.Ok? <==> Resource.ConcreteType(project).Ok? && Resource.ConcreteType(file).Ok?)
      && (link.Ok? ==>
            && link.value == SupplementaryFileLink(
                 SupplementedEntity(Resource.ConcreteType(project).value, project.uuid),
                 [SupplementaryFile(Resource.ConcreteType(file).value, file.uuid)])
            && LinksSteps(file, project, config) ==
                 TerraStorages.LinksSteps(SupplementaryLinksDict(link.value), file.uuid, file.dcpVersion, project.uuid, config))
  {
    var files := ExperimentGraphs.SupplementaryFiles([file]);
    if files.Ok? {
      assert files.value == [SupplementaryFile(Resource.ConcreteType(file).value, file.uuid)];
    }
  }

  /** A file read from the record uploads the bytes, as they are, to
      '{project uuid}/data/metadata_{project uuid}.xlsx' in the bucket. */
  lemma DataStepsOfRecord(file: Resource.MetadataResource, project: Resource.MetadataResource, bytes: seq<bv8>,
                          config: TerraStorages.StorageConfig, schemaUrl: Json, saved: SavedSpreadsheet,
                          submissionDate: Json, updateDate: Json)
    requires Resource.FromDict(FileRecord(project, schemaUrl, saved, submissionDate, updateDate)) == Ok(file)
    ensures DataSteps(file, project, bytes, config) ==
      [Do(StagingWrite(config.bucketName,
          TerraStorages.StagingKey(config.keyPrefix, project.uuid + "/data/" + "metadata_" + project.uuid + ".xlsx"),
          GcsStorages.Bytes(bytes)))]
  {
    FileRecordRead(project, schemaUrl, saved, submissionDate, updateDate);
    FileRecordFields(project, schemaUrl, saved, submissionDate, updateDate);
    DataStepsOfName(file, project, bytes, config);
  }

  lemma DataStepsOfName(file: Resource.MetadataResource, project: Resource.MetadataResource, bytes: seq<bv8>,
                        config: TerraStorages.StorageConfig)
    requires file.fullResource.JObj? && "fileName" in file.fullResource.fields
    requires file.fullResource.fields["fileName"] == JStr("metadata_" + project.uuid + ".xlsx")
    ensures DataSteps(file, project, bytes, config) ==
      [Do(StagingWrite(config.bucketName,
          TerraStorages.StagingKey(config.keyPrefix, project.uuid + "/data/" + "metadata_" + project.uuid + ".xlsx"),
          GcsStorages.Bytes(bytes)))]
  {
    var name := "metadata_" + project.uuid + ".xlsx";
    assert Get(file.fullResource, "fileName") == Ok(JStr(name));
    assert project.uuid + "/data/" + name == project.uuid + "/data/" + "metadata_" + project.uuid + ".xlsx";
  }

  /** `write_to_terra` runs its three parts in order, each only when the
      previous one succeeded. */
  lemma WriteToTerraParts(file: Resource.MetadataResource, project: Resource.MetadataResource, bytes: seq<bv8>,
                          config: TerraStorages.StorageConfig, env: Env)
    ensures var m := Run(TerraStorages.MetadataSteps(file, project.uuid, config), env);
      var l := Run(LinksSteps(file, project, config), env);
      var d := Run(DataSteps(file, project, bytes, config), env);
      Run(WriteToTerraSteps(file, project, bytes, config), env) ==
        if m.result.Err? then m
        else if l.result.Err? then Execution(m.trace + l.trace, l.result)
        else Execution(m.trace + l.trace + d.trace, d.result)
  {
    var ms := TerraStorages.MetadataSteps(file, project.uuid, config);
    var ls := LinksSteps(file, project, config);
    var ds := DataSteps(file, project, bytes, config);
    RunAppend(ms, ls, env);
    RunAppend(ms + ls, ds, env);
  }

  /** When everything succeeds, the calls are the metadata writes, the links
      write and the upload, in that order, and all go to the configured
      bucket. */
  lemma WriteToTerraOk(file: Resource.MetadataResource, project: Resource.MetadataResource, bytes: seq<bv8>,
                       config: TerraStorages.StorageConfig, env: Env)
    ensures var x := Run(WriteToTerraSteps(file, project, bytes, config), env);
      && (x.result.Ok? ==> x.trace == Calls(WriteToTerraSteps(file, project, bytes, config)))
      && (forall c :: c in x.trace ==> c.StagingWrite? && c.bucket == config.bucketName)
  {
    var ms := TerraStorages.MetadataSteps(file, project.uuid, config);
    var ls := LinksSteps(file, project, config);
    var ds := DataSteps(file, project, bytes, config);
    TerraStorages.MetadataOnlyWrites(file, project.uuid, config);
    LinksOnlyWrite(file, project, config);
    DataOnlyWrites(file, project, bytes, config);
    ThreeOnlyWrite(ms, ls, ds, config.bucketName, env);
  }

  /** Three runs of steps in a row that each write only to `bucket`. */
  lemma ThreeOnlyWrite(ms: seq<Step>, ls: seq<Step>, ds: seq<Step>, bucket: string, env: Env)
    requires forall c :: c in Calls(ms) ==> c.StagingWrite? && c.bucket == bucket
    requires forall c :: c in Calls(ls) ==> c.StagingWrite? && c.bucket == bucket
    requires forall c :: c in Calls(ds) ==> c.StagingWrite? && c.bucket == bucket
    ensures var x := Run(ms + ls + ds, env);
      && (x.result.Ok? ==> x.trace == Calls(ms + ls + ds))
      && (forall c :: c in x.trace ==> c.StagingWrite? && c.bucket == bucket)
  {
    var steps := ms + ls + ds;
    RunOk(steps, env);
    RunTracePrefix(steps, env);
    CallsAppend(ms, ls);
    CallsAppend(ms + ls, ds);
    var t := Run(steps, env).trace;
    assert forall c :: c in t ==> c in Calls(steps) by {
      forall c | c in t
        ensures c in Calls(steps)
      {
        var i :| 0 <= i < |t| && t[i] == c;
        assert Calls(steps)[i] == c;
      }
    }
  }

  lemma DataOnlyWrites(file: Resource.MetadataResource, project: Resource.MetadataResource, bytes: seq<bv8>,
                       config: TerraStorages.StorageConfig)
    ensures forall c :: c in Calls(DataSteps(file, project, bytes, config)) ==> c.StagingWrite? && c.bucket == config.bucketName
  {
    if Get(file.fullResource, "fileName").Ok? {
      var c := TerraStorages.StagingCall(config, project.uuid + "/data/" + PyStrText(file.fullResource.fields["fileName"]), GcsStorages.Bytes(bytes));
      assert DataSteps(file, project, bytes, config) == [Do(c)];
      assert Calls([Do(c)]) == [c];
    }
  }

  lemma LinksOnlyWrite(file: Resource.MetadataResource, project: Resource.MetadataResource,
                       config: TerraStorages.StorageConfig)
    ensures forall c :: c in Calls(LinksSteps(file, project, config)) ==> c.StagingWrite? && c.bucket == config.bucketName
  {
    var link := ExperimentGraphs.SupplementaryFileLinkFor(SupplementaryFilesInfo(project, [file]));
    if link.Ok? {
      TerraStorages.LinksOnlyWrite(SupplementaryLinksDict(link.value), file.uuid, file.dcpVersion, project.uuid, config);
    }
  }

  // ---------------------------------------------------------------- export

  /** The body of the `try` in `export_spreadsheet`: the workbook, then the
      rest. */
  function ExportTry(projectUuid: string, submissionUuid: string, saved: SavedSpreadsheet,
                     config: TerraStorages.StorageConfig, env: Env): Execution
  {
    var workbook := GetWorkbook(JStr(submissionUuid));
    if workbook in env.failures then Execution([workbook], Err(env.failures[workbook]))
    else After([workbook], ProjectExport(projectUuid, saved, config, env))
  }

  /** From the project on: the project, then the rest. */
  function ProjectExport(projectUuid: string, saved: SavedSpreadsheet, config: TerraStorages.StorageConfig,
                         env: Env): Execution
  {
    var project := IngestServices.FetchMetadata("projects", projectUuid, env);
    if project.value.Err? then Execution(project.trace, Err(project.value.error))
    else After(project.trace, FileExport(project.value.value, saved, config, env))
  }

  /** From the record on: the record, then the writes. */
  function FileExport(project: Resource.MetadataResource, saved: SavedSpreadsheet,
                      config: TerraStorages.StorageConfig, env: Env): Execution
  {
    var file := CreateFileMetadata(saved, project, env);
    if file.value.Err? then Execution(file.trace, Err(file.value.error))
    else After(file.trace, Run(WriteToTerraSteps(file.value.value, project, saved.bytes, config), env))
  }

  /** A run that follows the calls `before`. */
  function After(before: seq<Call>, x: Execution): Execution {
    Execution(before + x.trace, x.result)
  }

  /** `export_spreadsheet`: whatever the `try` raises is replaced by
      `SpreadsheetExportError`. */
  function ExportSpreadsheetRun(projectUuid: string, submissionUuid: string, saved: SavedSpreadsheet,
                                config: TerraStorages.StorageConfig, env: Env): Execution
  {
    var x := ExportTry(projectUuid, submissionUuid, saved, config, env);
    Execution(x.trace, if x.result.Err? then Err(SpreadsheetExportError) else Ok(()))
  }

  /** Every failure is reported as `SpreadsheetExportError`, with the calls
      made up to it; the export succeeds exactly when the body does. */
  lemma ExportSpreadsheetErrors(projectUuid: string, submissionUuid: string, saved: SavedSpreadsheet,
                                config: TerraStorages.StorageConfig, env: Env)
    ensures var x := ExportSpreadsheetRun(projectUuid, submissionUuid, saved, config, env);
      var body := ExportTry(projectUuid, submissionUuid, saved, config, env);
      && x.trace == body.trace
      && (x.result.Err? <==> body.result.Err?)
      && (x.result.Err? ==> x.result.error == SpreadsheetExportError)
  {
  }

  /** The workbook is fetched first; its failure stops the export before
      anything else is asked for. */
  lemma ExportWorkbookFirst(projectUuid: string, submissionUuid: string, saved: SavedSpreadsheet,
                            config: TerraStorages.StorageConfig, env: Env)
    ensures var x := ExportSpreadsheetRun(projectUuid, submissionUuid, saved, config, env);
      var workbook := GetWorkbook(JStr(submissionUuid));
      && x.trace[0] == workbook
      && (workbook in env.failures ==> x == Execution([workbook], Err(SpreadsheetExportError)))
  {
    ExportSpreadsheetErrors(projectUuid, submissionUuid, saved, config, env);
  }

  /** The project is fetched second; its failure stops the export before
      anything is written. */
  lemma ExportProjectSecond(projectUuid: string, submissionUuid: string, saved: SavedSpreadsheet,
                            config: TerraStorages.StorageConfig, env: Env)
    requires GetWorkbook(JStr(submissionUuid)) !in env.failures
    ensures var x := ExportSpreadsheetRun(projectUuid, submissionUuid, saved, config, env);
      var getProject := GetEntity("projects", JStr(projectUuid));
      var project := IngestServices.FetchMetadata("projects", projectUuid, env).value;
      && x.trace[1] == getProject
      && (project.Err? ==> x == Execution([GetWorkbook(JStr(submissionUuid)), getProject], Err(SpreadsheetExportError)))
  {
    ExportSpreadsheetErrors(projectUuid, submissionUuid, saved, config, env);
    ProjectExportSpec(projectUuid, saved, config, env);
  }

  /** Once both are read, the rest of the export follows them and decides
      its outcome. */
  lemma ExportAfterProject(projectUuid: string, submissionUuid: string, saved: SavedSpreadsheet,
                           config: TerraStorages.StorageConfig, env: Env)
    requires GetWorkbook(JStr(submissionUuid)) !in env.failures
    requires IngestServices.FetchMetadata("projects", projectUuid, env).value.Ok?
    ensures var x := ExportSpreadsheetRun(projectUuid, submissionUuid, saved, config, env);
      var project := IngestServices.FetchMetadata("projects", projectUuid, env).value.value;
      && x.trace == [GetWorkbook(JStr(submissionUuid)), GetEntity("projects", JStr(projectUuid))]
                    + FileExport(project, saved, config, env).trace
      && (x.result.Ok? <==> FileExport(project, saved, config, env).result.Ok?)
  {
    ExportSpreadsheetErrors(projectUuid, submissionUuid, saved, config, env);
    ExportTryAfterWorkbook(projectUuid, submissionUuid, saved, config, env);
    ProjectExportSpec(projectUuid, saved, config, env);
    var project := IngestServices.FetchMetadata("projects", projectUuid, env).value.value;
    AfterAfter(GetWorkbook(JStr(submissionUuid)), GetEntity("projects", JStr(projectUuid)),
      ExportTry(projectUuid, submissionUuid, saved, config, env), ProjectExport(projectUuid, saved, config, env),
      FileExport(project, saved, config, env));
  }

  /** Past the workbook, the body of the `try` is the rest of the export. */
  lemma ExportTryAfterWorkbook(projectUuid: string, submissionUuid: string, saved: SavedSpreadsheet,
                               config: TerraStorages.StorageConfig, env: Env)
    requires GetWorkbook(JStr(submissionUuid)) !in env.failures
    ensures ExportTry(projectUuid, submissionUuid, saved, config, env)
         == After([GetWorkbook(JStr(submissionUuid))], ProjectExport(projectUuid, saved, config, env))
  {
  }

  lemma AfterAfter(a: Call, b: Call, x: Execution, y: Execution, z: Execution)
    requires x == After([a], y) && y == After([b], z)
    ensures x.trace == [a, b] + z.trace && x.result == z.result
  {
    assert [a] + ([b] + z.trace) == [a, b] + z.trace;
  }

  /** The project is fetched first; its failure is the result. */
  lemma ProjectExportSpec(projectUuid: string, saved: SavedSpreadsheet, config: TerraStorages.StorageConfig,
                          env: Env)
    ensures var pe := ProjectExport(projectUuid, saved, config, env);
      var getProject := GetEntity("projects", JStr(projectUuid));
      var project := IngestServices.FetchMetadata("projects", projectUuid, env).value;
      && (project.Err? ==> pe == Execution([getProject], Err(project.error)))
      && (project.Ok? ==> pe == After([getProject], FileExport(project.value, saved, config, env)))
  {
  }

  /** Once the project is read, the schema url is asked for; when the record
      reads, the writes follow. */
  lemma FileExportSpec(project: Resource.MetadataResource, saved: SavedSpreadsheet,
                       config: TerraStorages.StorageConfig, env: Env)
    ensures var x := FileExport(project, saved, config, env);
      var file := CreateFileMetadata(saved, project, env).value;
      && x.trace[0] == SchemaCall
      && (file.Err? ==> x == Execution([SchemaCall], Err(file.error)))
      && (file.Ok? ==> x == After([SchemaCall], Run(WriteToTerraSteps(file.value, project, saved.bytes, config), env)))
  {
  }

  /** A successful export has written to the bucket exactly the file's
      metadata, its link and the spreadsheet's bytes, after the three
      fetches. */
  lemma ExportSpreadsheetWrites(projectUuid: string, submissionUuid: string, saved: SavedSpreadsheet,
                                config: TerraStorages.StorageConfig, env: Env)
    requires ExportSpreadsheetRun(projectUuid, submissionUuid, saved, config, env).result.Ok?
    ensures var project := IngestServices.FetchMetadata("projects", projectUuid, env).value;
      && project.Ok?
      && var file := CreateFileMetadata(saved, project.value, env).value;
         && file.Ok?
         && ExportSpreadsheetRun(projectUuid, submissionUuid, saved, config, env).trace ==
              [GetWorkbook(JStr(submissionUuid)), GetEntity("projects", JStr(projectUuid)), SchemaCall]
              + Calls(WriteToTerraSteps(file.value, project.value, saved.bytes, config))
  {
    ExportOkFetched(projectUuid, submissionUuid, saved, config, env);
    var project := IngestServices.FetchMetadata("projects", projectUuid, env).value;
    FileExportOk(project.value, saved, config, env);
    var file := CreateFileMetadata(saved, project.value, env).value;
    ThreeThen(ExportSpreadsheetRun(projectUuid, submissionUuid, saved, config, env).trace,
              FileExport(project.value, saved, config, env).trace,
              Calls(WriteToTerraSteps(file.value, project.value, saved.bytes, config)),
              GetWorkbook(JStr(submissionUuid)), GetEntity("projects", JStr(projectUuid)), SchemaCall);
  }

  lemma ThreeThen(t: seq<Call>, rest: seq<Call>, calls: seq<Call>, a: Call, b: Call, c: Call)
    requires t == [a, b] + rest && rest == [c] + calls
    ensures t == [a, b, c] + calls
  {
  }

  /** A successful export fetched the workbook and the project, and the run
      from the record on succeeded. */
  lemma ExportOkFetched(projectUuid: string, submissionUuid: string, saved: SavedSpreadsheet,
                        config: TerraStorages.StorageConfig, env: Env)
    requires ExportSpreadsheetRun(projectUuid, submissionUuid, saved, config, env).result.Ok?
    ensures var project := IngestServices.FetchMetadata("projects", projectUuid, env).value;
      && project.Ok?
      && FileExport(project.value, saved, config, env).result.Ok?
      && ExportSpreadsheetRun(projectUuid, submissionUuid, saved, config, env).trace ==
           [GetWorkbook(JStr(submissionUuid)), GetEntity("projects", JStr(projectUuid))]
           + FileExport(project.value, saved, config, env).trace
  {
    ExportWorkbookFirst(projectUuid, submissionUuid, saved, config, env);
    ExportProjectSecond(projectUuid, submissionUuid, saved, config, env);
    ExportAfterProject(projectUuid, submissionUuid, saved, config, env);
  }

  /** A successful run from the record on made the schema call and then
      exactly the writes. */
  lemma FileExportOk(project: Resource.MetadataResource, saved: SavedSpreadsheet,
                     config: TerraStorages.StorageConfig, env: Env)
    requires FileExport(project, saved, config, env).result.Ok?
    ensures var file := CreateFileMetadata(saved, project, env).value;
      && file.Ok?
      && FileExport(project, saved, config, env).trace ==
           [SchemaCall] + Calls(WriteToTerraSteps(file.value, project, saved.bytes, config))
  {
    FileExportSpec(project, saved, config, env);
    var file := CreateFileMetadata(saved, project, env).value;
    WriteToTerraOk(file.value, project, saved.bytes, config, env);
  }

  class SpreadsheetExporter {
    const ingest: IngestServices.IngestService
    const terra: TerraStorages.TerraStorageClient

    constructor(ingest: IngestServices.IngestService, terra: TerraStorages.TerraStorageClient)
      requires ingest.world == terra.world
      ensures this.ingest == ingest && this.terra == terra
    {
      this.ingest := ingest;
      this.terra := terra;
    }

    /** `export_spreadsheet` */
    method ExportSpreadsheet(projectUuid: string, submissionUuid: string, saved: SavedSpreadsheet) returns (r: Result<()>)
      requires ingest.world == terra.world
      modifies ingest.world
      ensures var x := ExportSpreadsheetRun(projectUuid, submissionUuid, saved, terra.config, ingest.world.env);
        ingest.world.trace == old(ingest.world.trace) + x.trace && r == x.result
    {
      r := ExportBody(projectUuid, submissionUuid, saved);
      if r.Err? {
        r := Err(SpreadsheetExportError);
      } else {
        OkUnit(r);
      }
    }

    /** The body of the `try` in `export_spreadsheet`. */
    method ExportBody(projectUuid: string, submissionUuid: string, saved: SavedSpreadsheet) returns (r: Result<()>)
      requires ingest.world == terra.world
      modifies ingest.world
      ensures var x := ExportTry(projectUuid, submissionUuid, saved, terra.config, ingest.world.env);
        ingest.world.trace == old(ingest.world.trace) + x.trace && r == x.result
    {
      var workbook := ingest.world.Perform(GetWorkbook(JStr(submissionUuid)));
      if workbook.Err? {
        return Err(workbook.error);
      }
      ghost var t0 := old(ingest.world.trace);
      ghost var x := ProjectExport(projectUuid, saved, terra.config, ingest.world.env);
      r := ExportProject(projectUuid, saved);
      AppendAssoc(t0, [GetWorkbook(JStr(submissionUuid))], x.trace);
    }

    /** The body from the project on. */
    method ExportProject(projectUuid: string, saved: SavedSpreadsheet) returns (r: Result<()>)
      requires ingest.world == terra.world
      modifies ingest.world
      ensures var x := ProjectExport(projectUuid, saved, terra.config, ingest.world.env);
        ingest.world.trace == old(ingest.world.trace) + x.trace && r == x.result
    {
      ghost var t0 := ingest.world.trace;
      var project := ingest.GetMetadata("projects", projectUuid);
      if project.Err? {
        return Err(project.error);
      }
      ghost var p := IngestServices.FetchMetadata("projects", projectUuid, ingest.world.env);
      ghost var x := FileExport(project.value, saved, terra.config, ingest.world.env);
      r := ExportFile(project.value, saved);
      AppendAssoc(t0, p.trace, x.trace);
    }

    /** The body from the record on. */
    method ExportFile(project: Resource.MetadataResource, saved: SavedSpreadsheet) returns (r: Result<()>)
      requires ingest.world == terra.world
      modifies ingest.world
      ensures var x := FileExport(project, saved, terra.config, ingest.world.env);
        ingest.world.trace == old(ingest.world.trace) + x.trace && r == x.result
    {
      ghost var t0 := ingest.world.trace;
      var file := CreateSupplementaryFileMetadata(saved, project);
      if file.Err? {
        return Err(file.error);
      }
      ghost var w := Run(WriteToTerraSteps(file.value, project, saved.bytes, terra.config), ingest.world.env);
      r := WriteToTerra(saved.bytes, project, file.value);
      AppendAssoc(t0, [SchemaCall], w.trace);
    }

    /** `create_supplementary_file_metadata` */
    method CreateSupplementaryFileMetadata(saved: SavedSpreadsheet, project: Resource.MetadataResource)
      returns (r: Result<Resource.MetadataResource>)
      modifies ingest.world
      ensures var f := CreateFileMetadata(saved, project, ingest.world.env);
        ingest.world.trace == old(ingest.world.trace) + f.trace && r == f.value
    {
      var schemaUrl := ingest.world.Perform(SchemaCall);
      if schemaUrl.Err? {
        return Err(schemaUrl.error);
      }
      var submissionDate := Get(project.fullResource, "submissionDate");
      if submissionDate.Err? {
        return Err(submissionDate.error);
      }
      var updateDate := Get(project.fullResource, "updateDate");
      if updateDate.Err? {
        return Err(updateDate.error);
      }
      r := Resource.FromDict(FileRecord(project, schemaUrl.value, saved, submissionDate.value, updateDate.value));
    }

    /** `write_to_terra` */
    method WriteToTerra(bytes: seq<bv8>, project: Resource.MetadataResource, file: Resource.MetadataResource)
      returns (r: Result<()>)
      requires ingest.world == terra.world
      modifies terra.world
      ensures var x := Run(WriteToTerraSteps(file, project, bytes, terra.config), terra.world.env);
        terra.world.trace == old(terra.world.trace) + x.trace && r == x.result
    {
      WriteToTerraParts(file, project, bytes, terra.config, terra.world.env);
      ghost var t0 := terra.world.trace;
      ghost var m := Run(TerraStorages.MetadataSteps(file, project.uuid, terra.config), terra.world.env);
      ghost var l := Run(LinksSteps(file, project, terra.config), terra.world.env);
      r := terra.WriteMetadata(file, project.uuid);
      if r.Err? {
        return;
      }
      r := WriteLinks(file, project);
      AppendAssoc(t0, m.trace, l.trace);
      if r.Err? {
        return;
      }
      var name := Get(file.fullResource, "fileName");
      if name.Err? {
        return Err(name.error);
      }
      ghost var d := Run(DataSteps(file, project, bytes, terra.config), terra.world.env);
      r := terra.WriteToStagingBucket(project.uuid + "/data/" + PyStrText(name.value), GcsStorages.Bytes(bytes));
      AppendAssoc(t0, m.trace + l.trace, d.trace);
    }

    /** `write_links` */
    method WriteLinks(file: Resource.MetadataResource, project: Resource.MetadataResource) returns (r: Result<()>)
      requires ingest.world == terra.world
      modifies terra.world
      ensures var x := Run(LinksSteps(file, project, terra.config), terra.world.env);
        terra.world.trace == old(terra.world.trace) + x.trace && r == x.result
    {
      var info := SupplementaryFilesInfo(project, [file]);
      var graph := ExperimentGraphs.FromSupplementaryFilesInfo(info, project);
      if graph.Err? {
        return Err(graph.error);
      }
      var link := ExperimentGraphs.SupplementaryFileLinkFor(info).value;
      ExperimentGraphs.FromSupplementaryFilesInfoLink(info, link);
      assert graph.value.links.ToDict() == SupplementaryLinksDict(link) by {
        var d := graph.value.links.ToDict();
        assert d.fields["links"].items == [SupplementaryLinkToDict(link)];
        assert d.fields == map["links" := JArr([SupplementaryLinkToDict(link)])];
      }
      r := terra.WriteLinks(graph.value.links, file.uuid, file.dcpVersion, project.uuid);
    }
  }
}
