/** `TerraStorageClient` (exporter/terra/storage.py): where each exported
    document lands in the staging bucket, what it holds, and the order of the
    writes.  The bucket write itself is a call on the `World`. */
module TerraStorages {
  import opened Wrappers
  import opened Json
  import opened Strings
  import opened Effects
  import GcsStorages
  import Resource
  import Descriptors
  import SchemaResources
  import LinkSets

  // ------------------------------------------------------------ object keys

  /** '{project}/metadata/{concrete_type}/{uuid}_{dcp_version}.json' */
  function MetadataKey(project: string, concreteType: string, uuid: string, dcpVersion: string): string {
    project + "/" + ("metadata" + "/" + (concreteType + "/" + VersionedName(uuid, dcpVersion)))
  }

  /** '{project}/descriptors/{concrete_type}/{uuid}_{dcp_version}.json' */
  function DescriptorKey(project: string, concreteType: string, uuid: string, dcpVersion: string): string {
    project + "/" + ("descriptors" + "/" + (concreteType + "/" + VersionedName(uuid, dcpVersion)))
  }

  /** '{uuid}_{dcp_version}.json' */
  function VersionedName(uuid: string, dcpVersion: string): string {
    uuid + "_" + dcpVersion + ".json"
  }

  /** '{project}/links/{process_uuid}_{process_version}_{project}.json' */
  function LinksKey(project: string, processUuid: string, processVersion: string): string {
    project + "/" + ("links" + "/" + LinksName(project, processUuid, processVersion))
  }

  /** '{process_uuid}_{process_version}_{project}.json' */
  function LinksName(project: string, processUuid: string, processVersion: string): string {
    processUuid + "_" + processVersion + "_" + project + ".json"
  }

  /** '{project}/staging_area.json' */
  function StagingAreaKey(project: string): string {
    project + "/" + "staging_area.json"
  }

  /** `write_to_staging_bucket`: '{key_prefix}/{object_key}'. */
  function StagingKey(keyPrefix: string, objectKey: string): string {
    keyPrefix + "/" + objectKey
  }

  /** With the default empty prefix every object key starts with '/'. */
  lemma EmptyPrefixLeadingSlash(objectKey: string)
    ensures StagingKey("", objectKey) == "/" + objectKey
    ensures StagingKey("", objectKey)[0] == '/'
  {
  }

  /** Splitting `first + "/" + rest` at '/' when `first` holds no '/'. */
  lemma SplitHead(first: string, rest: string)
    requires '/' !in first
    ensures Split(first + "/" + rest, "/") == [first] + Split(rest, "/")
  {
    CharFree(first, '/');
    SplitAfterFirst(first, "/", rest);
  }

  /** For a project uuid without '/', the first path segment of every key is
      the project and the second names the kind of document; a metadata or
      descriptor key's third segment is the concrete type. */
  lemma MetadataKeySegments(project: string, concreteType: string, uuid: string, dcpVersion: string)
    requires '/' !in project && '/' !in concreteType
    ensures var parts := Split(MetadataKey(project, concreteType, uuid, dcpVersion), "/");
      |parts| >= 3 && parts[0] == project && parts[1] == "metadata" && parts[2] == concreteType
  {
    var tail := VersionedName(uuid, dcpVersion);
    SplitHead(project, "metadata" + "/" + (concreteType + "/" + tail));
    SplitHead("metadata", concreteType + "/" + tail);
    SplitHead(concreteType, tail);
  }

  lemma DescriptorKeySegments(project: string, concreteType: string, uuid: string, dcpVersion: string)
    requires '/' !in project && '/' !in concreteType
    ensures var parts := Split(DescriptorKey(project, concreteType, uuid, dcpVersion), "/");
      |parts| >= 3 && parts[0] == project && parts[1] == "descriptors" && parts[2] == concreteType
  {
    var tail := VersionedName(uuid, dcpVersion);
    SplitHead(project, "descriptors" + "/" + (concreteType + "/" + tail));
    SplitHead("descriptors", concreteType + "/" + tail);
    SplitHead(concreteType, tail);
  }

  lemma LinksKeySegments(project: string, processUuid: string, processVersion: string)
    requires '/' !in project
    ensures var parts := Split(LinksKey(project, processUuid, processVersion), "/");
      |parts| >= 2 && parts[0] == project && parts[1] == "links"
  {
    var tail := LinksName(project, processUuid, processVersion);
    SplitHead(project, "links" + "/" + tail);
    SplitHead("links", tail);
  }

  lemma StagingAreaKeySegments(project: string)
    requires '/' !in project
    ensures Split(StagingAreaKey(project), "/") == [project, "staging_area.json"]
  {
    SplitHead(project, "staging_area.json");
    CharFree("staging_area.json", '/');
    SplitFree("staging_area.json", "/");
  }

  /** Documents of different kinds never share a key, whatever the projects
      (uuids, which hold no '/'). */
  lemma KeysOfDifferentKinds(p1: string, p2: string, ct1: string, ct2: string, u1: string, u2: string,
                            v1: string, v2: string, pu: string, pv: string)
    requires '/' !in p1 && '/' !in p2 && '/' !in ct1 && '/' !in ct2
    ensures MetadataKey(p1, ct1, u1, v1) != DescriptorKey(p2, ct2, u2, v2)
    ensures MetadataKey(p1, ct1, u1, v1) != LinksKey(p2, pu, pv)
    ensures MetadataKey(p1, ct1, u1, v1) != StagingAreaKey(p2)
    ensures DescriptorKey(p1, ct1, u1, v1) != LinksKey(p2, pu, pv)
    ensures DescriptorKey(p1, ct1, u1, v1) != StagingAreaKey(p2)
    ensures LinksKey(p1, pu, pv) != StagingAreaKey(p2)
  {
    MetadataKeySegments(p1, ct1, u1, v1);
    DescriptorKeySegments(p1, ct1, u1, v1);
    DescriptorKeySegments(p2, ct2, u2, v2);
    LinksKeySegments(p1, pu, pv);
    LinksKeySegments(p2, pu, pv);
    StagingAreaKeySegments(p2);
  }

  /** Metadata documents of different projects or concrete types never share
      a key. */
  lemma MetadataKeysApart(p1: string, p2: string, ct1: string, ct2: string, u1: string, u2: string,
                          v1: string, v2: string)
    requires '/' !in p1 && '/' !in p2 && '/' !in ct1 && '/' !in ct2
    requires p1 != p2 || ct1 != ct2
    ensures MetadataKey(p1, ct1, u1, v1) != MetadataKey(p2, ct2, u2, v2)
  {
    MetadataKeySegments(p1, ct1, u1, v1);
    MetadataKeySegments(p2, ct2, u2, v2);
  }

  // ------------------------------------------------------ upload-area URLs

  /** `bucket_and_key_for_upload_area`: the bucket after '//' and only the
      first path segment after it; IndexError when either split comes up
      short. */
  function BucketAndKeyForUploadArea(uploadArea: string): (r: Result<(string, string)>)
    ensures r.Err? ==> r.error == IndexError
  {
    var parts := Split(uploadArea, "//");
    if |parts| < 2 then Err(IndexError)
    else
      var bucketAndKey := SplitOnce(parts[1], "/");
      if |bucketAndKey| < 2 then Err(IndexError)
      else Ok((bucketAndKey[0], Split(bucketAndKey[1], "/")[0]))
  }

  /** An upload area 'scheme://bucket/key' followed by nothing or by a path
      gives the bucket and the key. */
  lemma BucketAndKeyOfArea(scheme: string, bucket: string, key: string, tail: string)
    requires '/' !in scheme && '/' !in bucket && '/' !in key
    requires tail == [] || tail[0] == '/'
    requires !Contains("/" + (key + tail), "//")
    ensures BucketAndKeyForUploadArea(scheme + "//" + bucket + "/" + (key + tail)) == Ok((bucket, key))
  {
    UrlSplit(scheme, bucket, key + tail);
    if tail == [] {
      assert key + tail == key;
      CharFree(key, '/');
      SplitFree(key, "/");
    } else {
      assert tail == "/" + tail[1..];
      assert key + tail == key + "/" + tail[1..];
      SplitHead(key, tail[1..]);
    }
  }

  /** 's3fake://bucket/key' gives bucket 'bucket' and key 'key'. */
  lemma ExampleUploadArea(scheme: string, bucket: string, key: string)
    requires scheme == "s3fake:" && bucket == "bucket" && key == "key"
    ensures BucketAndKeyForUploadArea(scheme + "//" + bucket + "/" + key) == Ok((bucket, key))
  {
    assert key + [] == key;
    NoDoubleSlashContains("/" + key);
    BucketAndKeyOfArea(scheme, bucket, key, []);
  }

  /** Only the first segment after the bucket is kept: 's3://b/k/rest'
      gives bucket 'b' and key 'k'. */
  lemma ExampleNestedUploadArea(scheme: string, bucket: string, key: string, tail: string)
    requires scheme == "s3:" && bucket == "b" && key == "k" && tail == "/rest"
    ensures BucketAndKeyForUploadArea(scheme + "//" + bucket + "/" + (key + tail)) == Ok((bucket, key))
  {
    NoDoubleSlashContains("/" + (key + tail));
    BucketAndKeyOfArea(scheme, bucket, key, tail);
  }

  // -------------------------------------------------------------- documents

  /** `update_schema_info_and_validate`: `describedBy` and `schema_version`
      are overwritten from the schema, then the document is validated
      against it (`valid`); a validation failure is a MetadataParseException.
      Item assignment needs a dict. */
  function UpdateSchemaInfo(doc: Json, schema: SchemaResources.SchemaResource, valid: Json -> bool): Result<Json> {
    if !doc.JObj? then Err(TypeError)
    else
      var updated := JObj(doc.fields["describedBy" := schema.schemaUrl]["schema_version" := schema.schemaVersion]);
      if valid(updated) then Ok(updated) else Err(MetadataParseException)
  }

  /** The document gains or replaces exactly the two schema entries, and is
      returned exactly when it validates; doing it twice changes nothing
      more. */
  lemma UpdateSchemaInfoSpec(doc: Json, schema: SchemaResources.SchemaResource, valid: Json -> bool)
    requires doc.JObj?
    ensures var r := UpdateSchemaInfo(doc, schema, valid);
      && (r.Err? ==> r.error == MetadataParseException)
      && (r.Ok? ==> valid(r.value))
    ensures var r := UpdateSchemaInfo(doc, schema, valid);
      r.Ok? ==>
        && r.value.JObj?
        && r.value.fields.Keys == doc.fields.Keys + {"describedBy", "schema_version"}
        && r.value.fields["describedBy"] == schema.schemaUrl
        && r.value.fields["schema_version"] == schema.schemaVersion
        && (forall k :: k in doc.fields && k != "describedBy" && k != "schema_version" ==> r.value.fields[k] == doc.fields[k])
        && UpdateSchemaInfo(r.value, schema, valid) == r
  {
    var r := UpdateSchemaInfo(doc, schema, valid);
    if r.Ok? {
      var again := r.value.fields["describedBy" := schema.schemaUrl]["schema_version" := schema.schemaVersion];
      assert again == r.value.fields;
    }
  }

  /** What a client is configured with: the staging bucket, the key prefix,
      the latest schemas served by the schema service, and the validator. */
  datatype StorageConfig = StorageConfig(
    bucketName: string,
    keyPrefix: string,
    descriptorSchema: SchemaResources.SchemaResource,
    linksSchema: SchemaResources.SchemaResource,
    valid: Json -> bool)

  /** `generate_file_descriptor_json` */
  function FileDescriptorJson(m: Resource.MetadataResource, config: StorageConfig): Result<Json> {
    var descriptor :- Descriptors.FromFileMetadata(m);
    var doc :- Descriptors.ToDict(descriptor);
    UpdateSchemaInfo(doc, config.descriptorSchema, config.valid)
  }

  /** `generate_links_json`, given `link_set.to_dict()`. */
  function LinksJson(links: Json, config: StorageConfig): Result<Json>
    requires links.JObj?
  {
    UpdateSchemaInfo(JObj(links.fields["schema_type" := JStr("links")]), config.linksSchema, config.valid)
  }

  /** A links document carries `schema_type` 'links' and the set's links. */
  lemma LinksJsonSpec(links: Json, config: StorageConfig)
    requires links.JObj? && "links" in links.fields
    ensures var r := LinksJson(links, config);
      r.Ok? ==>
        r.value.JObj? && r.value.fields["schema_type"] == JStr("links")
        && r.value.fields["links"] == links.fields["links"]
    ensures LinksJson(links, config).Err? ==> LinksJson(links, config).error == MetadataParseException
  {
    UpdateSchemaInfoSpec(JObj(links.fields["schema_type" := JStr("links")]), config.linksSchema, config.valid);
  }

  /** The staging-area marker: `{is_delta: false}`. */
  const StagingAreaJson: Json := JObj(map["is_delta" := JBool(false)])

  // ------------------------------------------------------------------ writes

  /** `write_to_staging_bucket`: the bucket write of one payload. */
  function StagingCall(config: StorageConfig, objectKey: string, data: GcsStorages.Payload): Call {
    StagingWrite(config.bucketName, StagingKey(config.keyPrefix, objectKey), data)
  }

  /** The bucket write of one document, streamed as JSON. */
  function WriteCall(config: StorageConfig, objectKey: string, doc: Json): Call {
    StagingCall(config, objectKey, GcsStorages.Document(doc))
  }

  /** `write_file_descriptor`: the key is formatted first, then the document
      generated, then written. */
  function DescriptorSteps(m: Resource.MetadataResource, project: string, config: StorageConfig): seq<Step> {
    match Resource.ConcreteType(m)
    case Err(e) => [Raise(e)]
    case Ok(ct) =>
      match FileDescriptorJson(m, config)
      case Err(e) => [Raise(e)]
      case Ok(doc) => [Do(WriteCall(config, DescriptorKey(project, ct, m.uuid, m.dcpVersion), doc))]
  }

  /** `write_metadata`: the content with provenance, then the file descriptor
      when the resource is a file. */
  function MetadataSteps(m: Resource.MetadataResource, project: string, config: StorageConfig): seq<Step> {
    match Resource.ConcreteType(m)
    case Err(e) => [Raise(e)]
    case Ok(ct) =>
      match Resource.GetContent(m, true)
      case Err(e) => [Raise(e)]
      case Ok(content) =>
        [Do(WriteCall(config, MetadataKey(project, ct, m.uuid, m.dcpVersion), content))]
        + (if m.metadataType == "file" then DescriptorSteps(m, project, config) else [])
  }

  /** `write_metadatas`: each resource in order. */
  function MetadatasSteps(ms: seq<Resource.MetadataResource>, project: string, config: StorageConfig): seq<Step>
    decreases |ms|
  {
    if ms == [] then []
    else MetadatasSteps(ms[..|ms| - 1], project, config) + MetadataSteps(ms[|ms| - 1], project, config)
  }

  /** One iteration of `write_metadatas` after `n` resources were written:
      the resource's run `x` extends the loop's run, and ends it when it
      fails. */
  lemma MetadatasStep(ms: seq<Resource.MetadataResource>, n: nat, project: string, config: StorageConfig, env: Env,
                      prev: Execution, x: Execution)
    requires n < |ms| && prev == Run(MetadatasSteps(ms[..n], project, config), env) && prev.result.Ok?
    requires x == Run(MetadataSteps(ms[n], project, config), env)
    ensures x.result.Ok? ==> Run(MetadatasSteps(ms[..n + 1], project, config), env) == Execution(prev.trace + x.trace, x.result)
    ensures x.result.Err? ==> Run(MetadatasSteps(ms, project, config), env) == Execution(prev.trace + x.trace, x.result)
  {
    assert ms[..n + 1][..n] == ms[..n] && ms[..n + 1][n] == ms[n];
    assert MetadatasSteps(ms[..n + 1], project, config)
      == MetadatasSteps(ms[..n], project, config) + MetadataSteps(ms[n], project, config);
    RunAppend(MetadatasSteps(ms[..n], project, config), MetadataSteps(ms[n], project, config), env);
    if x.result.Err? {
      MetadatasStopped(ms, n + 1, project, config, env);
    }
  }

  /** Once a prefix of the resources fails, the rest are never written. */
  lemma {:induction false} MetadatasStopped(ms: seq<Resource.MetadataResource>, k: nat, project: string, config: StorageConfig, env: Env)
    requires k <= |ms| && Run(MetadatasSteps(ms[..k], project, config), env).result.Err?
    ensures Run(MetadatasSteps(ms, project, config), env) == Run(MetadatasSteps(ms[..k], project, config), env)
    decreases |ms|
  {
    if k == |ms| {
      assert ms[..k] == ms;
    } else {
      var init := ms[..|ms| - 1];
      assert init[..k] == ms[..k];
      MetadatasStopped(init, k, project, config, env);
      RunAppend(MetadatasSteps(init, project, config), MetadataSteps(ms[|ms| - 1], project, config), env);
    }
  }

  /** `write_links` */
  function LinksSteps(links: Json, processUuid: string, processVersion: string, project: string, config: StorageConfig): seq<Step>
    requires links.JObj?
  {
    match LinksJson(links, config)
    case Err(e) => [Raise(e)]
    case Ok(doc) => [Do(WriteCall(config, LinksKey(project, processUuid, processVersion), doc))]
  }

  /** A readable resource's content goes, with its provenance, to its
      metadata key, and that is its only write unless its type is "file". */
  lemma MetadataStepsSpec(m: Resource.MetadataResource, project: string, config: StorageConfig, ct: string, content: Json)
    requires Resource.ConcreteType(m) == Ok(ct) && Resource.GetContent(m, true) == Ok(content)
    ensures var steps := MetadataSteps(m, project, config);
      && |steps| >= 1
      && steps[0] == Do(StagingWrite(config.bucketName, StagingKey(config.keyPrefix, MetadataKey(project, ct, m.uuid, m.dcpVersion)), GcsStorages.Document(content)))
      && (m.metadataType != "file" <==> |steps| == 1)
  {
    MetadataStepsShape(m, project, config, ct, content);
    if m.metadataType == "file" {
      DescriptorStepsOf(m, project, config, ct);
    }
  }

  /** For a file, a second write follows: its descriptor, at the descriptor
      key, when the descriptor can be generated; otherwise the error that
      generating it raised. */
  lemma MetadataStepsOfFile(m: Resource.MetadataResource, project: string, config: StorageConfig, ct: string, content: Json)
    requires Resource.ConcreteType(m) == Ok(ct) && Resource.GetContent(m, true) == Ok(content)
    requires m.metadataType == "file"
    ensures var steps := MetadataSteps(m, project, config);
      && |steps| == 2
      && (FileDescriptorJson(m, config).Ok? <==> steps[1].Do?)
      && (steps[1].Do? ==> steps[1].call == StagingWrite(config.bucketName,
            StagingKey(config.keyPrefix, DescriptorKey(project, ct, m.uuid, m.dcpVersion)),
            GcsStorages.Document(FileDescriptorJson(m, config).value)))
      && (steps[1].Raise? ==> steps[1].error == FileDescriptorJson(m, config).error)
  {
    MetadataStepsShape(m, project, config, ct, content);
    DescriptorStepsOf(m, project, config, ct);
  }

  /** The steps of `write_metadata` for a readable resource: its own write,
      then the descriptor's steps for a file. */
  lemma MetadataStepsShape(m: Resource.MetadataResource, project: string, config: StorageConfig, ct: string, content: Json)
    requires Resource.ConcreteType(m) == Ok(ct) && Resource.GetContent(m, true) == Ok(content)
    ensures MetadataSteps(m, project, config)
         == [Do(WriteCall(config, MetadataKey(project, ct, m.uuid, m.dcpVersion), content))]
            + (if m.metadataType == "file" then DescriptorSteps(m, project, config) else [])
  {
  }

  /** The one step of `write_file_descriptor` for a typed resource. */
  lemma DescriptorStepsOf(m: Resource.MetadataResource, project: string, config: StorageConfig, ct: string)
    requires Resource.ConcreteType(m) == Ok(ct)
    ensures var steps := DescriptorSteps(m, project, config);
      && |steps| == 1
      && (FileDescriptorJson(m, config).Ok? <==> steps[0].Do?)
      && (steps[0].Do? ==> steps[0].call == StagingWrite(config.bucketName,
            StagingKey(config.keyPrefix, DescriptorKey(project, ct, m.uuid, m.dcpVersion)),
            GcsStorages.Document(FileDescriptorJson(m, config).value)))
      && (steps[0].Raise? ==> steps[0].error == FileDescriptorJson(m, config).error)
  {
  }

  /** How `write_metadata` runs: its first write, then, when that succeeds
      and the resource is a file, the descriptor's steps. */
  lemma MetadataRunParts(m: Resource.MetadataResource, project: string, config: StorageConfig, env: Env, ct: string, content: Json)
    requires Resource.ConcreteType(m) == Ok(ct) && Resource.GetContent(m, true) == Ok(content)
    ensures var x1 := Run([Do(WriteCall(config, MetadataKey(project, ct, m.uuid, m.dcpVersion), content))], env);
      Run(MetadataSteps(m, project, config), env) ==
        if x1.result.Err? || m.metadataType != "file" then x1
        else Execution(x1.trace + Run(DescriptorSteps(m, project, config), env).trace, Run(DescriptorSteps(m, project, config), env).result)
  {
    var first := [Do(WriteCall(config, MetadataKey(project, ct, m.uuid, m.dcpVersion), content))];
    var rest := if m.metadataType == "file" then DescriptorSteps(m, project, config) else [];
    MetadataStepsShape(m, project, config, ct, content);
    RunAppend(first, rest, env);
    if m.metadataType != "file" {
      assert first + rest == first;
    }
  }

  /** `write_metadata` and `write_links` only ever write to the configured
      bucket. */
  lemma MetadataOnlyWrites(m: Resource.MetadataResource, project: string, config: StorageConfig)
    ensures forall c :: c in Calls(MetadataSteps(m, project, config)) ==> c.StagingWrite? && c.bucket == config.bucketName
  {
    var steps := MetadataSteps(m, project, config);
    if Resource.ConcreteType(m).Ok? && Resource.GetContent(m, true).Ok? {
      var ct := Resource.ConcreteType(m).value;
      var content := Resource.GetContent(m, true).value;
      var first := [Do(WriteCall(config, MetadataKey(project, ct, m.uuid, m.dcpVersion), content))];
      var rest := if m.metadataType == "file" then DescriptorSteps(m, project, config) else [];
      MetadataStepsShape(m, project, config, ct, content);
      CallsAppend(first, rest);
      DescriptorOnlyWrites(m, project, config);
    }
  }

  lemma DescriptorOnlyWrites(m: Resource.MetadataResource, project: string, config: StorageConfig)
    ensures forall c :: c in Calls(DescriptorSteps(m, project, config)) ==> c.StagingWrite? && c.bucket == config.bucketName
  {
    var ct := Resource.ConcreteType(m);
    var doc := FileDescriptorJson(m, config);
    if ct.Ok? && doc.Ok? {
      var c := WriteCall(config, DescriptorKey(project, ct.value, m.uuid, m.dcpVersion), doc.value);
      assert DescriptorSteps(m, project, config) == [Do(c)];
      assert Calls([Do(c)]) == [c];
    }
  }

  lemma LinksOnlyWrite(links: Json, processUuid: string, processVersion: string, project: string, config: StorageConfig)
    requires links.JObj?
    ensures forall c :: c in Calls(LinksSteps(links, processUuid, processVersion, project, config)) ==>
      c.StagingWrite? && c.bucket == config.bucketName
  {
  }

  lemma {:induction false} MetadatasOnlyWrite(ms: seq<Resource.MetadataResource>, project: string, config: StorageConfig)
    ensures forall c :: c in Calls(MetadatasSteps(ms, project, config)) ==> c.StagingWrite? && c.bucket == config.bucketName
    decreases |ms|
  {
    if ms != [] {
      var init := ms[..|ms| - 1];
      MetadatasOnlyWrite(init, project, config);
      MetadataOnlyWrites(ms[|ms| - 1], project, config);
      CallsAppend(MetadatasSteps(init, project, config), MetadataSteps(ms[|ms| - 1], project, config));
    }
  }

  class TerraStorageClient {
    const config: StorageConfig
    const world: World

    constructor(config: StorageConfig, world: World)
      ensures this.config == config && this.world == world
    {
      this.config := config;
      this.world := world;
    }

    /** `write_to_staging_bucket` */
    method WriteToStagingBucket(objectKey: string, data: GcsStorages.Payload) returns (r: Result<()>)
      modifies world
      ensures world.trace == old(world.trace) + Run([Do(StagingCall(config, objectKey, data))], world.env).trace
      ensures r == Run([Do(StagingCall(config, objectKey, data))], world.env).result
    {
      var answer := world.Perform(StagingCall(config, objectKey, data));
      r := if answer.Err? then Err(answer.error) else Ok(());
    }

    /** `write_file_descriptor` */
    method WriteFileDescriptor(m: Resource.MetadataResource, project: string) returns (r: Result<()>)
      modifies world
      ensures world.trace == old(world.trace) + Run(DescriptorSteps(m, project, config), world.env).trace
      ensures r == Run(DescriptorSteps(m, project, config), world.env).result
    {
      var ct := Resource.ConcreteType(m);
      if ct.Err? {
        return Err(ct.error);
      }
      var doc := FileDescriptorJson(m, config);
      if doc.Err? {
        return Err(doc.error);
      }
      r := WriteToStagingBucket(DescriptorKey(project, ct.value, m.uuid, m.dcpVersion), GcsStorages.Document(doc.value));
    }

    /** `write_metadata` */
    method WriteMetadata(m: Resource.MetadataResource, project: string) returns (r: Result<()>)
      modifies world
      ensures world.trace == old(world.trace) + Run(MetadataSteps(m, project, config), world.env).trace
      ensures r == Run(MetadataSteps(m, project, config), world.env).result
    {
      var ct := Resource.ConcreteType(m);
      if ct.Err? {
        return Err(ct.error);
      }
      var content := Resource.GetContent(m, true);
      if content.Err? {
        return Err(content.error);
      }
      var key := MetadataKey(project, ct.value, m.uuid, m.dcpVersion);
      MetadataRunParts(m, project, config, world.env, ct.value, content.value);
      ghost var before := world.trace;
      ghost var x1 := Run([Do(WriteCall(config, key, content.value))], world.env);
      r := WriteToStagingBucket(key, GcsStorages.Document(content.value));
      if r.Ok? && m.metadataType == "file" {
        ghost var x2 := Run(DescriptorSteps(m, project, config), world.env);
        r := WriteFileDescriptor(m, project);
        AppendAssoc(before, x1.trace, x2.trace);
      }
    }

    /** `write_metadatas` */
    method WriteMetadatas(ms: seq<Resource.MetadataResource>, project: string) returns (r: Result<()>)
      modifies world
      ensures world.trace == old(world.trace) + Run(MetadatasSteps(ms, project, config), world.env).trace
      ensures r == Run(MetadatasSteps(ms, project, config), world.env).result
    {
      for n := 0 to |ms|
        invariant Run(MetadatasSteps(ms[..n], project, config), world.env).result.Ok?
        invariant world.trace == old(world.trace) + Run(MetadatasSteps(ms[..n], project, config), world.env).trace
      {
        ghost var prev := Run(MetadatasSteps(ms[..n], project, config), world.env);
        ghost var x := Run(MetadataSteps(ms[n], project, config), world.env);
        r := WriteMetadata(ms[n], project);
        MetadatasStep(ms, n, project, config, world.env, prev, x);
        AppendAssoc(old(world.trace), prev.trace, x.trace);
        if r.Err? {
          return;
        }
      }
      assert ms[..|ms|] == ms;
      r := Ok(());
      OkUnit(Run(MetadatasSteps(ms, project, config), world.env).result);
    }

    /** `write_links` */
    method WriteLinks(linkSet: LinkSets.LinkSet, processUuid: string, processVersion: string, project: string)
      returns (r: Result<()>)
      requires linkSet.Valid()
      modifies world
      ensures world.trace == old(world.trace) + Run(LinksSteps(old(linkSet.ToDict()), processUuid, processVersion, project, config), world.env).trace
      ensures r == Run(LinksSteps(old(linkSet.ToDict()), processUuid, processVersion, project, config), world.env).result
    {
      r := WriteLinksOf(linkSet.ToDict(), processUuid, processVersion, project);
    }

    /** `write_links` once `link_set.to_dict()` is taken. */
    method WriteLinksOf(links: Json, processUuid: string, processVersion: string, project: string)
      returns (r: Result<()>)
      requires links.JObj?
      modifies world
      ensures world.trace == old(world.trace) + Run(LinksSteps(links, processUuid, processVersion, project, config), world.env).trace
      ensures r == Run(LinksSteps(links, processUuid, processVersion, project, config), world.env).result
    {
      var doc := LinksJson(links, config);
      if doc.Err? {
        return Err(doc.error);
      }
      r := WriteToStagingBucket(LinksKey(project, processUuid, processVersion), GcsStorages.Document(doc.value));
    }

    /** `write_staging_area_json` */
    method WriteStagingAreaJson(project: string) returns (r: Result<()>)
      modifies world
      ensures world.trace == old(world.trace) + [WriteCall(config, StagingAreaKey(project), StagingAreaJson)]
      ensures r == Run([Do(WriteCall(config, StagingAreaKey(project), StagingAreaJson))], world.env).result
    {
      r := WriteToStagingBucket(StagingAreaKey(project), GcsStorages.Document(StagingAreaJson));
    }
  }
}
