/** The value types of the experiment graph (exporter/graph/input.py,
    exporter/graph/entity/output.py, exporter/graph/entity/supplementary_file.py,
    exporter/graph/supplemented_entity.py, exporter/graph/link/protocol.py,
    exporter/graph/link/supplementary_file.py, and the two files under exporter/graph/info/). */
module GraphEntities {
  import opened Wrappers
  import opened Json
  import Resource

  datatype Input = Input(inputType: string, inputUuid: string)
  datatype Output = Output(outputType: string, outputUuid: string)
  datatype ProtocolLink = ProtocolLink(protocolType: string, protocolUuid: string)
  datatype SupplementaryFile = SupplementaryFile(fileType: string, fileId: string)
  datatype SupplementedEntity = SupplementedEntity(entityType: string, entityId: string)

  /** A link from a supplemented entity to its supplementary files. */
  datatype SupplementaryFileLink = SupplementaryFileLink(supplementedEntity: SupplementedEntity, files: seq<SupplementaryFile>)

  datatype ProcessInfo = ProcessInfo(
    process: Resource.MetadataResource,
    inputs: seq<Resource.MetadataResource>,
    outputs: seq<Resource.MetadataResource>,
    protocols: seq<Resource.MetadataResource>)

  datatype SupplementaryFilesInfo = SupplementaryFilesInfo(
    forEntity: Resource.MetadataResource,
    files: seq<Resource.MetadataResource>)

  function InputUuid(i: Input): string { i.inputUuid }
  function OutputUuid(o: Output): string { o.outputUuid }
  function ProtocolUuid(p: ProtocolLink): string { p.protocolUuid }

  /** A dict of two string entries. */
  function Pair(k1: string, v1: string, k2: string, v2: string): Json {
    JObj(map[k1 := JStr(v1), k2 := JStr(v2)])
  }

  function InputToDict(i: Input): Json { Pair("input_type", i.inputType, "input_id", i.inputUuid) }
  function OutputToDict(o: Output): Json { Pair("output_type", o.outputType, "output_id", o.outputUuid) }
  function ProtocolToDict(p: ProtocolLink): Json { Pair("protocol_type", p.protocolType, "protocol_id", p.protocolUuid) }
  function FileToDict(f: SupplementaryFile): Json { Pair("file_type", f.fileType, "file_id", f.fileId) }
  function EntityToDict(e: SupplementedEntity): Json { Pair("entity_type", e.entityType, "entity_id", e.entityId) }

  /** Each leaf serialises to exactly its two fields, under distinct keys, so
      its dict determines it. */
  lemma LeafDicts(a: SupplementaryFile, b: SupplementaryFile)
    ensures FileToDict(a).fields.Keys == {"file_type", "file_id"}
    ensures FileToDict(a) == FileToDict(b) ==> a == b
  {
    if FileToDict(a) == FileToDict(b) {
      assert FileToDict(a).fields["file_type"] == FileToDict(b).fields["file_type"];
      assert FileToDict(a).fields["file_id"] == FileToDict(b).fields["file_id"];
    }
  }

  /** `ProtocolLink.from_metadata_resource`: the resource's concrete type and
      uuid. */
  function ProtocolFromResource(m: Resource.MetadataResource): Result<ProtocolLink> {
    var protocolType :- Resource.ConcreteType(m);
    Ok(ProtocolLink(protocolType, m.uuid))
  }

  lemma ProtocolFromResourceSpec(m: Resource.MetadataResource)
    ensures ProtocolFromResource(m).Ok? <==> Resource.ConcreteType(m).Ok?
    ensures ProtocolFromResource(m).Ok? ==>
      && ProtocolFromResource(m).value.protocolUuid == m.uuid
      && ProtocolFromResource(m).value.protocolType == Resource.ConcreteType(m).value
      && '/' !in ProtocolFromResource(m).value.protocolType
  {
  }

  /** `SupplementaryFileLink.to_dict` */
  function SupplementaryLinkToDict(l: SupplementaryFileLink): Json {
    JObj(map[
      "link_type" := JStr("supplementary_file_link"),
      "entity" := EntityToDict(l.supplementedEntity),
      "files" := JArr(seq(|l.files|, i requires 0 <= i < |l.files| => FileToDict(l.files[i])))])
  }

  /** The link is marked "supplementary_file_link", carries its entity, and
      lists its files one for one, in order and with duplicates kept; so the
      dict determines the link. */
  lemma SupplementaryLinkToDictSpec(l: SupplementaryFileLink, l': SupplementaryFileLink)
    ensures var d := SupplementaryLinkToDict(l).fields;
      && d.Keys == {"link_type", "entity", "files"}
      && d["link_type"] == JStr("supplementary_file_link")
      && d["entity"] == EntityToDict(l.supplementedEntity)
      && d["files"].JArr? && |d["files"].items| == |l.files|
      && (forall i :: 0 <= i < |l.files| ==> d["files"].items[i] == FileToDict(l.files[i]))
    ensures SupplementaryLinkToDict(l) == SupplementaryLinkToDict(l') ==> l == l'
  {
    var d := SupplementaryLinkToDict(l).fields;
    var d' := SupplementaryLinkToDict(l').fields;
    if SupplementaryLinkToDict(l) == SupplementaryLinkToDict(l') {
      assert d["entity"] == d'["entity"];
      var e := EntityToDict(l.supplementedEntity).fields;
      var e' := EntityToDict(l'.supplementedEntity).fields;
      assert e["entity_type"] == e'["entity_type"] && e["entity_id"] == e'["entity_id"];
      assert d["files"] == d'["files"];
      assert |l.files| == |l'.files| by {
        assert |d["files"].items| == |d'["files"].items|;
      }
      forall i | 0 <= i < |l.files|
        ensures l.files[i] == l'.files[i]
      {
        assert d["files"].items[i] == d'["files"].items[i];
        LeafDicts(l.files[i], l'.files[i]);
      }
    }
  }
}
