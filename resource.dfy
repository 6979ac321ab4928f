/** `MetadataResource` (exporter/metadata/resource.py): one metadata document
    as read from the ingest API, with its dcp version normalised at
    construction. */
module Resource {
  import opened Wrappers
  import opened Json
  import opened Strings
  import Dates
  import Provenance

  datatype MetadataResource = MetadataResource(
    metadataType: string,
    metadataJson: Json,
    uuid: string,
    dcpVersion: string,
    provenance: Provenance.MetadataProvenance,
    fullResource: Json)

  /** The body of `from_dict` before its `except (KeyError, TypeError)`.
      `type.lower()` on a non-string is an AttributeError and a badly shaped
      `dcpVersion` string a ValueError; neither is converted.  A `dcpVersion`
      that is not a string makes `strptime` raise TypeError. */
  function ReadResource(data: Json): Result<MetadataResource> {
    var content :- Get(data, "content");
    var uuidObj :- Get(data, "uuid");
    var uuid :- Get(uuidObj, "uuid");
    var dcpVersion :- Get(data, "dcpVersion");
    var metadataType :- Get(data, "type");
    if !metadataType.JStr? then Err(AttributeError)
    else
      var provenance :- Provenance.FromDict(data);
      if !uuid.JStr? || !dcpVersion.JStr? then Err(TypeError)
      else
        var normalised :- Dates.ToDcpVersion(dcpVersion.s);
        Ok(MetadataResource(Lower(metadataType.s), content, uuid.s, normalised, provenance, data))
  }

  /** `MetadataResource.from_dict` */
  function FromDict(data: Json): Result<MetadataResource> {
    ConvertLookupError(ReadResource(data), MetadataParseException)
  }

  /** Every key `from_dict` reads is present, with dicts where it looks
      inside, and `type`, `uuid.uuid` and `dcpVersion` are strings. */
  predicate HasResourceKeys(data: Json) {
    && data.JObj? && "content" in data.fields && "dcpVersion" in data.fields && "type" in data.fields
    && "uuid" in data.fields && data.fields["uuid"].JObj? && "uuid" in data.fields["uuid"].fields
    && data.fields["uuid"].fields["uuid"].JStr? && data.fields["dcpVersion"].JStr?
    && data.fields["type"].JStr?
  }

  /** `from_dict` succeeds exactly when every key is present, the provenance
      reads and the dcp version parses. */
  lemma ReadResourceOk(data: Json)
    ensures ReadResource(data).Ok? <==>
      HasResourceKeys(data) && Provenance.FromDict(data).Ok?
      && Dates.ToDcpVersion(data.fields["dcpVersion"].s).Ok?
  {
  }

  /** What every resource read by `from_dict` satisfies. */
  predicate FromApi(r: MetadataResource) {
    && r.fullResource.JObj?
    && "content" in r.fullResource.fields && r.fullResource.fields["content"] == r.metadataJson
    && Provenance.HasProvenanceKeys(r.fullResource)
    && Provenance.FromDict(r.fullResource) == Ok(r.provenance)
  }

  /** `from_dict` copies the content, the uuid and the whole document, lower-
      cases the type, normalises the dcp version and reads the provenance. */
  lemma FromDictFields(data: Json)
    requires FromDict(data).Ok?
    ensures HasResourceKeys(data)
    ensures var r := FromDict(data).value;
      && r.metadataJson == data.fields["content"]
      && r.uuid == data.fields["uuid"].fields["uuid"].s
      && r.metadataType == Lower(data.fields["type"].s)
      && Dates.ToDcpVersion(data.fields["dcpVersion"].s) == Ok(r.dcpVersion)
      && r.fullResource == data
      && FromApi(r)
  {
    assert ReadResource(data).Ok?;
    ReadResourceOk(data);
    Provenance.FromDictFields(data);
  }

  /** Any missing key or non-dict level, an empty document included, is a
      MetadataParseException; the other failures are those the source lets
      escape. */
  lemma FromDictErrors(data: Json)
    requires FromDict(data).Err?
    ensures FromDict(data).error in {MetadataParseException, IndexError, ValueError, AttributeError}
    ensures data == JObj(map[]) ==> FromDict(data).error == MetadataParseException
  {
  }

  /** `concrete_type`: the suffix of `describedBy` after its last '/'.  Only a
      dict has `get`, and only a string has `rsplit`. */
  function ConcreteType(r: MetadataResource): (t: Result<string>)
    ensures t.Ok? ==> '/' !in t.value
  {
    var describedBy :- DictGet(r.metadataJson, "describedBy");
    if describedBy.JStr? then Ok(LastSegment(describedBy.s)) else Err(AttributeError)
  }

  /** The type read by `concrete_type` is the one `from_dict` looked up in the
      schema threshold table. */
  lemma ConcreteTypeOfRead(data: Json)
    requires FromDict(data).Ok?
    ensures Provenance.HasProvenanceKeys(data)
    ensures ConcreteType(FromDict(data).value) == Ok(LastSegment(Provenance.DescribedBy(data)))
  {
    FromDictFields(data);
    Provenance.FromDictFields(data);
    var r := FromDict(data).value;
    assert r.metadataJson == data.fields["content"];
    assert DictGet(r.metadataJson, "describedBy") == Ok(JStr(Provenance.DescribedBy(data)));
  }

  function OptionalNat(n: Option<nat>): Json {
    if n.Some? then JInt(n.value) else JNull
  }

  /** `asdict(provenance)` */
  function ProvenanceJson(p: Provenance.MetadataProvenance): Json {
    JObj(map[
      "document_id" := p.documentId,
      "submission_date" := p.submissionDate,
      "update_date" := p.updateDate,
      "schema_major_version" := OptionalNat(p.schemaMajorVersion),
      "schema_minor_version" := OptionalNat(p.schemaMinorVersion)])
  }

  /** `get_content(with_provenance)`: a copy of `full_resource['content']`
      (None when absent), with the provenance added under "provenance" when
      asked.  Item assignment on anything but a dict is a TypeError. */
  function GetContent(r: MetadataResource, withProvenance: bool): Result<Json> {
    var content :- DictGet(r.fullResource, "content");
    if !withProvenance then Ok(content)
    else if content.JObj? then Ok(JObj(content.fields["provenance" := ProvenanceJson(r.provenance)]))
    else Err(TypeError)
  }

  /** For a resource read by `from_dict`, `get_content` returns the content,
      with exactly one extra entry holding the five provenance fields when
      asked, and fails only when that content is not a dict. */
  lemma GetContentOfRead(r: MetadataResource)
    requires FromApi(r)
    ensures GetContent(r, false) == Ok(r.metadataJson)
    ensures GetContent(r, true).Ok? <==> r.metadataJson.JObj?
    ensures GetContent(r, true).Ok? ==>
      var c := GetContent(r, true).value;
      && c.JObj? && c.fields.Keys == r.metadataJson.fields.Keys + {"provenance"}
      && c.fields["provenance"] == ProvenanceJson(r.provenance)
      && (forall k :: k in r.metadataJson.fields && k != "provenance" ==> c.fields[k] == r.metadataJson.fields[k])
  {
  }

  /** Absent schema versions appear as None in the provenance entry. */
  lemma ProvenanceJsonAbsent(p: Provenance.MetadataProvenance)
    requires p.schemaMajorVersion.None? && p.schemaMinorVersion.None?
    ensures ProvenanceJson(p).fields["schema_major_version"] == JNull
    ensures ProvenanceJson(p).fields["schema_minor_version"] == JNull
    ensures |ProvenanceJson(p).fields| == 5
  {
  }
}
