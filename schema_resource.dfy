/** `SchemaResource` (exporter/schema/resource.py): a schema document as the
    ingest API lists it. */
module SchemaResources {
  import opened Wrappers
  import opened Json

  datatype SchemaResource = SchemaResource(schemaUrl: Json, schemaVersion: Json)

  /** The body of `from_dict` before its `except (KeyError, TypeError)`. */
  function ReadSchema(data: Json): Result<SchemaResource> {
    var links :- Get(data, "_links");
    var jsonSchema :- Get(links, "json-schema");
    var href :- Get(jsonSchema, "href");
    var version :- Get(data, "schemaVersion");
    Ok(SchemaResource(href, version))
  }

  /** `SchemaResource.from_dict` */
  function FromDict(data: Json): Result<SchemaResource> {
    ConvertLookupError(ReadSchema(data), SchemaParseException)
  }

  predicate HasSchemaKeys(data: Json) {
    && data.JObj? && "_links" in data.fields && "schemaVersion" in data.fields
    && data.fields["_links"].JObj? && "json-schema" in data.fields["_links"].fields
    && data.fields["_links"].fields["json-schema"].JObj?
    && "href" in data.fields["_links"].fields["json-schema"].fields
  }

  /** `from_dict` reads the schema URL from `_links.json-schema.href` and the
      version from `schemaVersion`, and fails with SchemaParseException
      exactly when one of them is missing. */
  lemma FromDictSpec(data: Json)
    ensures FromDict(data).Ok? <==> HasSchemaKeys(data)
    ensures FromDict(data).Err? ==> FromDict(data).error == SchemaParseException
    ensures FromDict(data).Ok? ==>
      FromDict(data).value == SchemaResource(
        data.fields["_links"].fields["json-schema"].fields["href"], data.fields["schemaVersion"])
  {
  }

  /** The layout the ingest API serves a schema in. */
  function SchemaJson(s: SchemaResource): Json {
    JObj(map["_links" := JObj(map["json-schema" := JObj(map["href" := s.schemaUrl])]),
      "schemaVersion" := s.schemaVersion])
  }

  lemma FromDictOfJson(s: SchemaResource)
    ensures FromDict(SchemaJson(s)) == Ok(s)
  {
  }
}
