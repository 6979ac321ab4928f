# ingest-exporter, modelled in Dafny

The exporter of the Human Cell Atlas ingest service. It listens on message queues for
"experiment", "submission", "spreadsheet" and "manifest" messages. For each one it reads
metadata documents from the ingest REST API, builds the experiment's provenance graph,
and writes metadata, file descriptors and links as JSON objects into a Terra staging
bucket. It can also start a Storage Transfer job for the submission's data files. Each
exported assay is recorded against an export job, and the job is marked EXPORTED once
every expected assay has been recorded.

The model has one module per source file of the exporter's core:

- **Metadata parsing** (`Resource`, `Provenance`, `Checksums`, `DataFiles`, `Descriptors`,
  `SchemaResources`, `Dates`) reads documents from a `Json` value. Python exceptions
  (`KeyError`, `TypeError`, `ValueError`, the exporter's own parse errors) become
  `Wrappers.Exception` values carried by a `Result`.
- **The provenance graph** (`NodeSets`, `LinkSets`, `ProcessLinks`, `ExperimentGraphs`)
  is made of classes whose methods update their fields in place, as the source does:
  - a node set keeps the first node stored for each uuid, in insertion order;
  - a link set is a Python dict (`OrderedMaps`: a map plus its key order), where the
    last write wins and an overwritten key keeps its place;
  - a process link keeps three uuid-unique lists (`UniqueLists`).

  The leaf value types are datatypes (`GraphEntities`).
- **Staging-bucket writes** (`GcsStorages`) are modelled concretely:
  - a `Bucket` object holds a map from object name to object;
  - a `Clock` counts time in tenths of a second;
  - a writer either uploads the object and then sets its `export_completed` flag, or
    finds the object present and polls for the flag with a doubling delay.

  `TerraStorages` gives the object-key scheme and the order of the writes.
- **Data transfer** (`TransferJobs`, `GcsTransfers`, `TransferClients`) covers the
  transfer-job document, the classification of an HTTP 409 Conflict as "already
  exists", and the reading of completion from the first listed operation.
- **Orchestration** (`IngestServices`, `ExportJobs`, `Messages`, `Handlers`,
  `QueueListeners`, `TerraListeners`, `Responders`, `SubmissionExporters`,
  `TerraExporters`, `ExperimentExporters`, `SpreadsheetExporters`, `ManifestReceivers`)
  is modelled as calls on collaborators (`Effects`):
  - a `World` records every call made on the broker, the ingest API, the staging bucket,
    the transfer service or a delegated exporter, in order;
  - a call may raise an exception that is fixed in advance, or answer with a JSON value;
  - each method is specified by a function that gives the calls it makes and its result
    (`Run` of a list of `Step`s).

  The lemmas then state the order of the calls, when the message is acknowledged or
  rejected, and which writes or patches happen on each error path.

## Model

| member | source | states |
|---|---|---|
| Resource.ReadResourceOk | exporter/metadata/resource.py:27-37 | `from_dict` succeeds exactly when the `content`, `uuid.uuid`, `dcpVersion` and `type` keys are present with the right shapes, the provenance parses and the dcp version parses |
| Resource.FromDictFields | exporter/metadata/resource.py:18-19 | a parsed resource holds the `content` document, the nested uuid, the lower-cased type, the dcp version normalised by `to_dcp_version` and the whole input as its full resource |
| Resource.FromDictErrors | exporter/metadata/resource.py:36-37 | a failed parse raises a metadata parse error, or the index/value/attribute error that escapes the `except` clause; an empty dict always gives a metadata parse error |
| Resource.ConcreteType | exporter/metadata/resource.py:39-40 | the concrete type never contains a `/` |
| Resource.ConcreteTypeOfRead | exporter/metadata/resource.py:39-40 | for a parsed resource the concrete type is the last `/`-separated segment of `content.describedBy` |
| Resource.GetContentOfRead | exporter/metadata/resource.py:21-25 | without provenance the content is the stored document; with provenance it is that document plus exactly one `provenance` key holding the provenance record, every other key unchanged, and it fails when the document is not a dict |
| Resource.ProvenanceJsonAbsent | exporter/metadata/provenance.py:43-49 | a provenance without schema versions serialises them as nulls, five keys in all |
| SchemaResources.FromDictSpec | exporter/schema/resource.py:10-17 | `from_dict` succeeds exactly when `_links.json-schema.href` and `schemaVersion` are present, returns those two values, and otherwise raises a schema parse error |
| SchemaResources.FromDictOfJson | exporter/schema/resource.py:4-15 | parsing the dict form of a schema resource gives that resource back |
| Checksums.FromDictSpec | exporter/metadata/checksums.py:14-24 | `from_dict` succeeds exactly when the four hash keys are present, keeps each value, and otherwise raises a metadata parse error |
| Checksums.FromDictOfJson | exporter/metadata/checksums.py:7-22 | parsing the dict form of a checksum record gives it back |
| Checksums.FromDictIgnoresExtraKeys | exporter/metadata/checksums.py:15-22 | keys other than the four hashes do not change the parsed record |
| DataFiles.SourceOfUrl | exporter/metadata/datafile.py:18-22 | for `scheme//bucket/key` with no `//` in the key, the source bucket is `bucket` and the source key is `key` |
| DataFiles.SourceOfUrlWithoutScheme | exporter/metadata/datafile.py:18-22 | a cloud url without `//` makes both accessors fail with an index error |
| DataFiles.ExampleTopLevelFile | exporter/metadata/datafile.py:18-22 | `s3://test-bucket/somefile.txt` has bucket `test-bucket` and key `somefile.txt` |
| DataFiles.ExampleNestedFile | exporter/metadata/datafile.py:21-22 | a nested key keeps all of its `/`-separated directories |
| DataFiles.SourceKeyDoubleSlash | exporter/metadata/datafile.py:21-22 | a `//` inside the key cuts the key short: `s3://b/dir//file` gives key `dir` |
| DataFiles.FromFileMetadataSpec | exporter/metadata/datafile.py:24-39 | `from_file_metadata` succeeds exactly when the full resource has the six data-file keys and parsable checksums, copies each field and the resource's dcp version, and otherwise raises a metadata parse error |
| Descriptors.StrLowerIfSet | exporter/metadata/descriptor.py:21 | a falsy crc32c is kept, a truthy one becomes its `str` lower-cased |
| Descriptors.ToDictSpec | exporter/metadata/descriptor.py:18-34 | `to_dict` succeeds exactly when the truthy hashes can be lowered; the result has exactly the ten descriptor keys, copies the identity fields, fixes `schema_type` to `file_descriptor` and holds lower-case hashes |
| Descriptors.ToDictHashes | exporter/metadata/descriptor.py:19-31 | the three hash entries are the lowered hashes |
| Descriptors.ToDictIdempotent | exporter/metadata/descriptor.py:18-34 | feeding the descriptor's own output hashes back in gives the same dict |
| Descriptors.LowerIfSetIdempotent | exporter/metadata/descriptor.py:19-20 | lowering an already lowered hash changes nothing |
| Descriptors.StrLowerIfSetIdempotent | exporter/metadata/descriptor.py:21 | lowering an already lowered crc32c changes nothing |
| Descriptors.FromFileMetadataSpec | exporter/metadata/descriptor.py:36-40 | a descriptor is built exactly when the data file parses, with the data file's uuid, name, content type, size and checksums and the resource's dcp version as file version |
| Descriptors.ExampleCrcLowered | exporter/metadata/descriptor.py:21 | an upper-case crc32c `AB12` is exported as `ab12` |
| Provenance.DigitRunEnd | exporter/metadata/provenance.py:59 | the end of a digit run: every character before it from the start is a digit and the next one is not |
| Provenance.FirstMatchFrom | exporter/metadata/provenance.py:59 | the leftmost position at or after `from` where `\d+\.\d+\.\d+` matches, or -1 when there is none |
| Provenance.SchemaVersionsRule | exporter/metadata/provenance.py:58-67 | the versions are found exactly when `describedBy` contains a semver; they are present exactly when the concrete type has no threshold or the semver is not below it, and then are its major and minor parts |
| Provenance.SchemaVersionsOf | exporter/metadata/provenance.py:59-67 | with a known first semver and concrete type the result is decided by `version_has_schema_fields` alone |
| Provenance.VersionPath | exporter/metadata/provenance.py:59-67 | for a `describedBy` of the form `<prefix>x.y.z/<type>` the versions are `(x, y)` or absent according to the type's threshold |
| Provenance.FirstSemverAfter | exporter/metadata/provenance.py:59 | after a digit-free prefix the first match is the semver that follows it |
| Provenance.LastSegmentAfter | exporter/metadata/provenance.py:60 | `rsplit('/', 1)[-1]` of `a/b` is `b` when `b` has no `/` |
| Provenance.CellSuspensionThreshold | exporter/metadata/provenance.py:12-16 | the duplicated `cell_suspension` entry keeps threshold 13.2.0 |
| Provenance.ExampleUnlisted | exporter/metadata/provenance.py:61-63 | a type with no threshold always gets its versions |
| Provenance.ExampleOlder | exporter/metadata/provenance.py:62-67 | cell_suspension 13.1.1 is below its threshold and gets no versions |
| Provenance.ExampleNewer | exporter/metadata/provenance.py:62-65 | cell_suspension 15.1.1 gets versions (15, 1) |
| Provenance.UnlistedType | exporter/metadata/provenance.py:12-40 | `widget` has no threshold |
| Provenance.FromDictFields | exporter/metadata/provenance.py:51-67 | a parsed provenance copies the uuid and both dates, and carries major and minor versions exactly when the schema-version rule yields them |
| Provenance.FromDictErrors | exporter/metadata/provenance.py:53-69 | parsing fails exactly when a key is missing (metadata parse error) or `describedBy` holds no semver (the `[0]` index error that is not caught) |
| Dates.ToDcpVersion | exporter/utils.py:11-13 | conversion fails exactly when parsing does, with a value error |
| Dates.ParseFormat | exporter/utils.py:7-19 | parsing the dcp-version text of a date-time with a four-digit year gives that date-time back |
| Dates.FormatShape | exporter/utils.py:7 | the dcp-version text has the `%Y-%m-%dT%H:%M:%S.%fZ` layout with each field zero-padded |
| Dates.ToDcpVersionIdempotent | exporter/utils.py:11-13 | converting an already converted version gives the same version |
| Dates.ToDcpVersionKeepsDigits | exporter/utils.py:11-13 | conversion keeps the date and time digits and pads the fraction with zeros to six digits (all zeros for the short format) |
| Dates.ExampleShort | exporter/utils.py:6-13 | `2019-05-23T16:53:40Z` becomes `2019-05-23T16:53:40.000000Z` |
| Dates.ExampleMillis | exporter/utils.py:5-13 | `2019-05-23T16:53:40.931Z` becomes `2019-05-23T16:53:40.931000Z` |
| Dates.ExampleUnknownFormat | exporter/utils.py:16-22 | an unknown format is refused with a value error |
| Dates.ExampleThreeDigitYear | exporter/utils.py:11-13 | year 999 is written unpadded as `999-…`, and that output no longer parses |
| NodeSets.MetadataNodeSet.constructor | exporter/graph/node_set.py:9-11 | a new node set is valid and holds no node |
| NodeSets.MetadataNodeSet.Contains | exporter/graph/node_set.py:13-14 | `item in nodes` holds exactly when some stored node has the item's uuid |
| NodeSets.MetadataNodeSet.AddNode | exporter/graph/node_set.py:16-21 | the stored list becomes `Add(objs, node)` (unchanged when the uuid is already stored, else the node appended) and the uuid set gains the node's uuid; the set stays the set of stored uuids and no uuid is stored twice |
| NodeSets.MetadataNodeSet.AddNodes | exporter/graph/node_set.py:23-25 | adding the nodes one by one leaves the stored list equal to `AddAll(objs, nodes)` and keeps the set valid |
| NodeSets.MetadataNodeSet.GetNodes | exporter/graph/node_set.py:27-28 | returns the stored nodes in insertion order (deep copies of values are the values) |
| NodeSets.AddNodeSpec | exporter/graph/node_set.py:16-21 | a node whose uuid is stored changes nothing (first write wins); a new uuid is appended at the end; uniqueness by uuid is kept |
| NodeSets.AddNodesSpec | exporter/graph/node_set.py:23-25 | adding a list twice equals adding it once; earlier nodes keep their places; uuids stay unique; a node with a new uuid is stored exactly when it is the first in the list with that uuid |
| UniqueLists.AddSpec | exporter/graph/node_set.py:16-21 | the generic uuid-deduplicating append: no-op on a known key, append and record on a new one, uniqueness kept |
| UniqueLists.AddAllSpec | exporter/graph/process_link.py:22-29 | appending a list one by one keeps keys unique, keeps the old prefix, and the key set becomes the old keys plus the list's keys |
| UniqueLists.AddAllIdempotent | exporter/graph/node_set.py:23-25 | adding the same list again changes nothing |
| UniqueLists.AddAllMembers | exporter/graph/node_set.py:23-25 | an item with a new key is kept exactly when it is the first in the list with its key |
| LinkSets.LinkSet.constructor | exporter/graph/link/link_set.py:11-12 | a new link set is valid and empty |
| LinkSets.LinkSet.AddLink | exporter/graph/link/link_set.py:18-24 | the dict becomes `links[key] = link`, the key being the process uuid of a process link and the supplemented entity's id otherwise; the set stays keyed by its links |
| LinkSets.LinkSet.AddLinks | exporter/graph/link/link_set.py:14-16 | adding the links one by one leaves the dict equal to `PutAll(links, ls)` and keeps it keyed by its links |
| LinkSets.LinkSet.ToDict | exporter/graph/link/link_set.py:26-32 | `to_dict` has the single key `links`, holding one serialised link per key, in the dict's insertion order |
| LinkSets.LinksToDicts | exporter/graph/link/link_set.py:31 | the list comprehension serialises each link in place, preserving length and order |
| LinkSets.AddLinkSpec | exporter/graph/link/link_set.py:18-24 | after `add_link` the link is stored under its key (last write wins), every other key keeps its value, a new key is appended to `values()` and an existing key keeps its position |
| LinkSets.AddLinksSpec | exporter/graph/link/link_set.py:14-16 | after `add_links` each link not overwritten by a later one with the same key is the value stored under its key |
| OrderedMaps.PutSpec | exporter/graph/link/link_set.py:24 | `d[k] = v` keeps the dict well formed, stores `v` under `k`, keeps every other entry, and grows it by one exactly when `k` was new |
| OrderedMaps.PutValues | exporter/graph/link/link_set.py:26-27 | `list(d.values())` after `d[k] = v`: a new key's value comes last, an overwritten key keeps its position |
| OrderedMaps.PutAllKeepsOrder | exporter/graph/link/link_set.py:14-16 | a loop of writes never reorders the keys already present |
| OrderedMaps.PutAllLastWins | exporter/graph/link/link_set.py:14-16 | after a loop of writes, the value under a key is the last written one |
| OrderedMaps.PutAllUntouched | exporter/graph/link/link_set.py:14-16 | keys no written item maps to keep their values |
| ProcessLinks.ProcessLink.constructor | exporter/graph/process_link.py:9-29 | the constructed link holds the process uuid and type and the inputs, outputs and protocols deduplicated by uuid in first-seen order, with the three uuid sets matching |
| ProcessLinks.ProcessLink.AddInputs | exporter/graph/process_link.py:22-23 | the constructor's first loop leaves `inputs == AddAll(inputs, xs)` and the other lists unchanged |
| ProcessLinks.ProcessLink.AddOutputs | exporter/graph/process_link.py:25-26 | the second loop leaves `outputs == AddAll(outputs, xs)` and the other lists unchanged |
| ProcessLinks.ProcessLink.AddProtocols | exporter/graph/process_link.py:28-29 | the third loop leaves `protocols == AddAll(protocols, xs)` and the other lists unchanged |
| ProcessLinks.ProcessLink.AddInput | exporter/graph/process_link.py:31-34 | an input with a known uuid changes nothing, a new one is appended and its uuid recorded; outputs, protocols and their uuid sets are untouched |
| ProcessLinks.ProcessLink.AddOutput | exporter/graph/process_link.py:36-39 | the same for outputs |
| ProcessLinks.ProcessLink.AddProtocol | exporter/graph/process_link.py:41-44 | the same for protocols |
| ProcessLinks.ProcessLinkDictSpec | exporter/graph/process_link.py:46-54 | `to_dict` has exactly the six keys, is marked `process_link`, carries the uuid as `process_id` and the type, and serialises the three lists entry for entry in order |
| ProcessLinks.ConstructedInputs | exporter/graph/process_link.py:22-23 | the constructed inputs have unique uuids, the same uuid set as the given inputs, and an input is kept exactly when it is the first given with its uuid |
| GraphEntities.LeafDicts | exporter/graph/entity/supplementary_file.py:10-14 | a supplementary file serialises to exactly `file_type` and `file_id`, and its dict determines it |
| GraphEntities.ProtocolFromResourceSpec | exporter/graph/link/protocol.py:12-14 | a protocol link exists exactly when the resource has a concrete type; it carries the resource's uuid and that type, which has no `/` |
| GraphEntities.SupplementaryLinkToDictSpec | exporter/graph/link/supplementary_file.py:13-18 | the dict has exactly `link_type` (`supplementary_file_link`), `entity` and `files`, one file dict per file in order, and it determines the link |
| ExperimentGraphs.ExperimentGraph.constructor | exporter/graph/experiment.py:16-18 | a new graph has fresh, empty links and nodes |
| ExperimentGraphs.ExperimentGraph.Extend | exporter/graph/experiment.py:20-27 | `extend` returns the graph itself, with its links and nodes updated by the other graph's links and nodes in order |
| ExperimentGraphs.ExtendLinksSpec | exporter/graph/experiment.py:21-22 | after `extend`, every link key of the other graph maps to the other graph's link, other keys keep theirs, and the old keys keep their order at the front |
| ExperimentGraphs.ExtendNodesSpec | exporter/graph/experiment.py:24-25 | after `extend` the nodes stay unique by uuid, the old nodes keep their places, the uuids are the union of both graphs' uuids, and extending twice by the same graph changes nothing more |
| ExperimentGraphs.ExtendEmpty | exporter/graph/experiment.py:20-27 | extending by an empty graph changes nothing |
| ExperimentGraphs.SupplementaryFiles | exporter/graph/experiment.py:40 | the comprehension succeeds exactly when every file has a concrete type, and then gives one `SupplementaryFile(type, uuid)` per file in order |
| ExperimentGraphs.SupplementaryFileLinkFor | exporter/graph/experiment.py:37-45 | succeeds exactly when the entity and every file have a concrete type; the link names the entity by type and uuid and lists the files in order |
| ExperimentGraphs.FromSupplementaryFilesInfo | exporter/graph/experiment.py:29-35 | the new graph holds the files and then the project as nodes (deduplicated) and the one supplementary link under the entity's uuid; it fails exactly when the link cannot be built |
| ExperimentGraphs.FromSupplementaryFilesInfoLink | exporter/graph/experiment.py:33-34 | that graph's links hold exactly one entry, keyed by the supplemented entity's uuid |
| ExperimentGraphs.FromSupplementaryFilesInfoNodes | exporter/graph/experiment.py:32 | that graph's nodes hold each uuid among the files and the project exactly once |
| GcsStorages.GcsStorage.constructor | exporter/terra/gcs/storage.py:16-19 | the storage keeps its bucket name and key prefix and has made no reload yet |
| GcsStorages.GcsStorage.MarkComplete | exporter/terra/gcs/storage.py:59-64 | the object is flagged `export_completed` exactly when the retried patch succeeds; past the retry deadline it fails with a retry error and the bucket is unchanged |
| GcsStorages.GcsStorage.Write | exporter/terra/gcs/storage.py:33-48 | only the object `{prefix}/{key}` may change; a writer that finds it present, or loses the race to create it, never overwrites it and polls instead; the winner uploads its data and flags it; any other upload error propagates with nothing stored (a precondition failure on the upload is the lost race); success always means the object is flagged complete |
| GcsStorages.GcsStorage.AssertFileUploaded | exporter/terra/gcs/storage.py:66-73 | polling starts at 0.1 s with a one-hour ceiling, may only set the object's flag, succeeds only once the flag is seen, and otherwise raises the polling exception after every delay has been slept |
| GcsStorages.GcsStorage.PollFrom | exporter/terra/gcs/storage.py:75-89 | each round sleeps, reloads and doubles the delay; it stops with success on the flag, or with the polling exception once the delay exceeds the ceiling, having slept exactly the sum of the delays and reloaded once per delay |
| GcsStorages.SleepsFrom | exporter/terra/gcs/storage.py:75-89 | from delay 2^k the delays slept are 2^k, …, 2^n where 2^n is the last one under the ceiling, summing to 2^(n+1) − 2^k |
| GcsStorages.PollingBudget | exporter/terra/gcs/storage.py:71-73 | a poll that never sees the flag sleeps 16 times, the last for 3276.8 s, 6553.5 s in all |
| GcsStorages.TwoWriters | exporter/terra/gcs/storage.py:33-43 | of two exporters writing the same key, the first one's data is kept, and if the first succeeds so does the second |
| TerraStorages.EmptyPrefixLeadingSlash | exporter/terra/storage.py:23-24 | with the default empty key prefix every staged object name starts with `/` |
| TerraStorages.MetadataKeySegments | exporter/terra/storage.py:39 | a metadata key lies under `{project}/metadata/{concrete type}` |
| TerraStorages.DescriptorKeySegments | exporter/terra/storage.py:61 | a descriptor key lies under `{project}/descriptors/{concrete type}` |
| TerraStorages.LinksKeySegments | exporter/terra/storage.py:54 | a links key lies under `{project}/links` |
| TerraStorages.StagingAreaKeySegments | exporter/terra/storage.py:89 | the staging-area key is exactly `{project}/staging_area.json` |
| TerraStorages.KeysOfDifferentKinds | exporter/terra/storage.py:39-89 | metadata, descriptor, links and staging-area keys never collide with one another |
| TerraStorages.MetadataKeysApart | exporter/terra/storage.py:39 | metadata documents of different projects or concrete types never share a key |
| TerraStorages.BucketAndKeyForUploadArea | exporter/terra/storage.py:97-102 | a malformed upload area fails with an index error |
| TerraStorages.BucketAndKeyOfArea | exporter/terra/storage.py:97-102 | for `scheme//bucket/key[/rest]` the result is the bucket and the first key segment |
| TerraStorages.ExampleUploadArea | exporter/terra/storage.py:97-102 | `s3fake://bucket/key` gives `(bucket, key)` |
| TerraStorages.ExampleNestedUploadArea | exporter/terra/storage.py:97-102 | `s3://b/k/rest` gives `(b, k)` |
| TerraStorages.UpdateSchemaInfoSpec | exporter/terra/storage.py:104-113 | the document gains exactly `describedBy` and `schema_version` from the schema, keeps every other key, is returned only when it validates and otherwise raises a metadata parse error; doing it twice is the same as once |
| TerraStorages.LinksJsonSpec | exporter/terra/storage.py:81-86 | the links document keeps the link list and has `schema_type` `links`; a failure is a metadata parse error |
| TerraStorages.MetadataStepsSpec | exporter/terra/storage.py:36-51 | writing a metadata document first stages its content with provenance under its metadata key, and writes anything further exactly when it is a file |
| TerraStorages.MetadataStepsOfFile | exporter/terra/storage.py:50-68 | a file's second step stages its descriptor under the descriptor key, or raises the descriptor's error |
| TerraStorages.MetadataStepsShape | exporter/terra/storage.py:36-51 | the steps of `write_metadata` are the content write followed, for files only, by `write_file_descriptor` |
| TerraStorages.DescriptorStepsOf | exporter/terra/storage.py:59-76 | `write_file_descriptor` is one staging write of the generated descriptor, or the error of generating it |
| TerraStorages.MetadatasStopped | exporter/terra/storage.py:31-34 | once one document's write fails, none of the remaining documents is written |
| TerraStorages.MetadataOnlyWrites | exporter/terra/storage.py:36-51 | writing a document only ever writes to the configured staging bucket |
| TerraStorages.DescriptorOnlyWrites | exporter/terra/storage.py:59-68 | writing a descriptor only ever writes to the configured staging bucket |
| TerraStorages.LinksOnlyWrite | exporter/terra/storage.py:53-57 | writing links only ever writes to the configured staging bucket |
| TerraStorages.MetadatasOnlyWrite | exporter/terra/storage.py:31-34 | writing many documents only ever writes to the configured staging bucket |
| TerraStorages.TerraStorageClient.WriteToStagingBucket | exporter/terra/storage.py:78-79 | one write of the payload to `{key_prefix}/{object key}` in the configured bucket is recorded and its outcome returned |
| TerraStorages.TerraStorageClient.WriteFileDescriptor | exporter/terra/storage.py:59-68 | the world records exactly the calls of the descriptor steps and the method returns their outcome |
| TerraStorages.TerraStorageClient.WriteMetadata | exporter/terra/storage.py:36-51 | the world records exactly the calls of the metadata steps and the method returns their outcome |
| TerraStorages.TerraStorageClient.WriteMetadatas | exporter/terra/storage.py:31-34 | the loop over the documents records exactly the calls of writing them in order, stopping at the first failure |
| TerraStorages.TerraStorageClient.WriteLinks | exporter/terra/storage.py:53-57 | the links document of the link set is staged under the links key |
| TerraStorages.TerraStorageClient.WriteStagingAreaJson | exporter/terra/storage.py:88-91 | exactly one write of `{is_delta: false}` to the staging-area key is recorded |
| TerraStorages.TerraStorageClient.WriteLinksOf | exporter/terra/storage.py:53-57 | the links document is generated and staged under the links key, or its generation error returned with nothing written |
| TerraStorages.TerraStorageClient.constructor | exporter/terra/storage.py:23-29 | the client keeps its configuration and the world it writes to |
| GcsTransfers.StartOutcomeSpec | exporter/terra/gcs/transfer.py:22-30 | starting succeeds exactly when the create call succeeds, and reports "already exists" exactly on a 409 |
| GcsTransfers.JobCompletionOfList | exporter/terra/gcs/transfer.py:41-46 | with a list of operations the answer is truthy exactly when the first operation is a dict whose `done` is truthy; it fails only when that first operation is a truthy non-dict |
| GcsTransfers.JobCompletionFirstOnly | exporter/terra/gcs/transfer.py:42-44 | only the first operation decides completion |
| GcsTransfers.JobCompletionNoOperations | exporter/terra/gcs/transfer.py:42-44 | no operations, or an empty list, means "not complete" (`None`) |
| GcsTransfers.JobCompletionOfDict | exporter/terra/gcs/transfer.py:41-46 | a non-empty dict under `operations` makes `operations[0]` raise a key error, reported as a transfer-operations parse error |
| GcsTransfers.GcsTransfer.constructor | exporter/terra/gcs/transfer.py:17-20 | the client keeps the world its calls go to |
| GcsTransfers.GcsTransfer.StartJob | exporter/terra/gcs/transfer.py:22-30 | exactly one create call carrying the job's dict is recorded, and its outcome is classified as above |
| GcsTransfers.GcsTransfer.IsJobComplete | exporter/terra/gcs/transfer.py:32-46 | exactly one list-operations call for the project and job name is recorded, and the answer is read from its response as above |
| TransferJobs.ToDictRoundTrip | exporter/terra/gcs/transfer_job.py:18-54 | every field of the job can be read back from its dict, so `to_dict` loses nothing |
| TransferJobs.SourcePaths | exporter/terra/gcs/transfer_job.py:37-44 | the source bucket, path and AWS key pair sit at their paths under `transferSpec.awsS3DataSource` |
| TransferJobs.SinkPaths | exporter/terra/gcs/transfer_job.py:46-48 | the destination bucket and path sit under `transferSpec.gcsDataSink` |
| TransferJobs.ToDictFixed | exporter/terra/gcs/transfer_job.py:18-54 | the job is enabled, starts and ends on the day it is built, never overwrites objects in the sink, and has exactly the six top-level keys |
| TransferClients.JobNameInjective | exporter/terra/submission/client.py:32 | different export jobs get different transfer job names |
| TransferClients.TransferJobFor | exporter/terra/submission/client.py:30-42 | building the job fails exactly when the upload area is malformed; otherwise it carries the job name, the GCP project, the destination bucket and the AWS key pair |
| TransferClients.TransferJobForArea | exporter/terra/submission/client.py:30-48 | from `scheme//bucket/key[/rest]` the job copies `key/` from `bucket` into `{prefix}/{project}/data/`, described by the area key and export job id |
| TransferClients.ExampleTransferJob | exporter/terra/submission/client.py:30-48 | `s3fake://bucket/key` gives source bucket `bucket` and source path `key/` |
| TransferClients.TransferRequestNoArea | exporter/terra/submission/client.py:22-23 | a submission without `stagingDetails` fails with a key error before any call |
| TransferClients.TransferRequestOfArea | exporter/terra/submission/client.py:22-25 | with a well-formed staging area the request sent is the dict of exactly the job built from it |
| TransferClients.QueriedNameIsNotJobName | exporter/terra/submission/client.py:27-28 | the name polled for is the bare export job id, never the name the job was created under |
| TransferClients.TerraTransferClient.constructor | exporter/terra/submission/client.py:11-20 | the client keeps its configuration and its transfer service |
| TransferClients.TerraTransferClient.TransferDataFiles | exporter/terra/submission/client.py:22-25 | a request that cannot be built fails with no call made; otherwise exactly one create call with it is recorded and its outcome returned |
| TransferClients.TerraTransferClient.IsTransferDone | exporter/terra/submission/client.py:27-28 | exactly one completion query for the project and the export job id is recorded and its answer returned |
| TerraStorages.MetadataRunParts | exporter/terra/storage.py:36-51 | `write_metadata` runs its metadata write first and stops there on failure or for a non-file resource; for a file it then runs the descriptor write, the traces concatenating |
| ExportJobs.ErrorsToJson | exporter/ingest/export_job.py:32 | the error list keeps its length and order, each error turned into its dict |
| ExportJobs.EntityToDictSpec | exporter/ingest/export_job.py:10-33 | an exported entity's dict has status `EXPORTED`, the assay process id under `context`, each error with code -1 and empty details, and the entity can be read back from it |
| ExportJobs.ErrorsReadBack | exporter/ingest/export_job.py:10-15 | every error's message can be read back from its dict, in order |
| ExportJobs.ParseState | exporter/ingest/export_job.py:36-40 | a string that is not one of the four state values fails with a value error |
| ExportJobs.ParseStateInverse | exporter/ingest/export_job.py:36-40 | `ExportJobState(s.value) == s` for every state, and a parsed value is that state's value |
| ExportJobs.PyInt | exporter/ingest/export_job.py:53 | `int(x)` fails with a value error on a string and a type error on other non-numbers |
| ExportJobs.PyIntOfString | exporter/ingest/export_job.py:53 | `int` reads back the decimal text of every integer |
| ExportJobs.FromDictOfJob | exporter/ingest/export_job.py:50-56 | for a job document at `…/exportJobs/{id}` the job id is `{id}`, the expected count is the total assay count, the state is the upper-cased status, and a status that is no state fails with a value error |
| ExportJobs.JobDictFields | exporter/ingest/export_job.py:53-56 | the count, the transfer flag (None when absent) and the state are read from the document, or the state's value error |
| ExportJobs.StatusCaseIgnored | exporter/ingest/export_job.py:55 | the status is matched ignoring case: `Exported` is the EXPORTED state |
| ExportJobs.FromDictNoCount | exporter/ingest/export_job.py:53 | a job document without a total assay count cannot be read |
| ExportJobs.NoCount | exporter/ingest/export_job.py:53 | the same holds for every document whose context lacks the count |
| ExportJobs.JobIdAsWrittenOfUrl | exporter/ingest/export_job.py:52 | as written, the job id is the text before the first `/` of the job's URL, which for an absolute URL is its scheme |
| ExportJobs.AsWrittenDiffersOnlyInId | exporter/ingest/export_job.py:50-56 | the code as written and the corrected reading accept the same documents and differ only in the job id |
| ExportJobs.ExampleJobIdAsWritten | exporter/ingest/export_job.py:52 | as written, `http://x/exportJobs/j1` gives job id `http:` |
| ExportJobs.ExampleJobIdCorrected | exporter/ingest/export_job.py:52 | the corrected reading gives job id `j1` |
| IngestServices.UrlsSpec | exporter/ingest/service.py:46-50 | the entities URL is the job URL plus `/entities`, the exported-entities query adds `?status=EXPORTED`, and different jobs have different URLs |
| IngestServices.CompletePatch | exporter/ingest/service.py:33-35 | completing a job patches only its status, to `EXPORTED`, on the job URL |
| IngestServices.TransferPatch | exporter/ingest/service.py:69-71 | the transfer-state patch touches only `dataFileTransfer`, on the job's context |
| IngestServices.EntityPostSpec | exporter/ingest/service.py:13-19 | the posted entity goes to the entities URL, has status `EXPORTED`, and reads back as the assay process with no errors |
| IngestServices.CreateEntityCompletes | exporter/ingest/service.py:13-31 | the entity is posted, then the job and the exported count are read afresh, and the job is completed exactly when every call succeeded and the expected count equals the exported count |
| IngestServices.OverCountNeverCompletes | exporter/ingest/service.py:22-31 | when more entities are exported than expected the job is never completed |
| IngestServices.FetchMetadataSpec | exporter/ingest/service.py:52-53 | one call fetches the entity by type and uuid; a failed call's error is passed on; otherwise the result is what `from_dict` makes of the document, keeping the document and its uuid |
| IngestServices.FetchProjectForProcessSpec | exporter/ingest/service.py:58-62 | one call fetches the related projects of the process's document; no related project is an index error; otherwise the first one is read by `from_dict` |
| IngestServices.IngestService.constructor | exporter/ingest/service.py:9-11 | the service keeps the API base URL and the world its calls go to |
| IngestServices.IngestService.CreateExportEntity | exporter/ingest/service.py:13-20 | the world records exactly the calls of posting the entity and then maybe completing the job, and the method returns their outcome |
| IngestServices.IngestService.MaybeCompleteJob | exporter/ingest/service.py:22-31 | the world records exactly the job read, the count read and, when they agree, the completing patch |
| IngestServices.IngestService.GetNumCompleteEntitiesForJob | exporter/ingest/service.py:64-67 | one query of the exported entities is recorded; the answer is its `page.totalElements` as an int, or the call's or the conversion's error |
| IngestServices.IngestService.CompleteJob | exporter/ingest/service.py:33-35 | exactly one patch of the job's status is recorded |
| IngestServices.IngestService.JobExists | exporter/ingest/service.py:41-44 | one check of the job URL is recorded and the answer is whether the response was ok |
| IngestServices.IngestService.SetDataFileTransfer | exporter/ingest/service.py:69-71 | exactly one patch of the job's `dataFileTransfer` is recorded |
| IngestServices.IngestService.GetMetadata | exporter/ingest/service.py:52-53 | the world records the one fetch and the method returns its result |
| IngestServices.IngestService.ProjectForProcess | exporter/ingest/service.py:58-62 | the world records the one related-projects fetch and the method returns its result |
| SubmissionExporters.ExportRequestedSpec | exporter/terra/submission/exporter.py:16 | export is requested exactly when `Export` is among the submission's submit actions, and a submission without submit actions does not request it |
| SubmissionExporters.AfterFetchSpec | exporter/terra/submission/exporter.py:16-20 | once the submission is fetched, a submission that does not request export raises the missing-action error with no call; otherwise at most the one create call for the transfer job named after the export job is made |
| SubmissionExporters.StartTransferSpec | exporter/terra/submission/exporter.py:13-20 | the submission is fetched first; a failed fetch or a submission without the export action stops there; at most one further call is made, and it creates the transfer job named after the export job; the transfer state is never set here |
| SubmissionExporters.TerraSubmissionExporter.constructor | exporter/terra/submission/exporter.py:8-10 | the exporter keeps its transfer client |
| SubmissionExporters.TerraSubmissionExporter.StartDataFileTransfer | exporter/terra/submission/exporter.py:13-20 | the world records exactly the calls of the fetch-check-transfer sequence above and the method returns its outcome |
| Responders.NotifiedJobSpec | exporter/terra/submission/responder.py:44-52 | a message names an export job exactly when its event type is `TRANSFER_OPERATION_SUCCESS` and its transfer job name starts with `transferJobs/` |
| Responders.NotifiedJobOfName | exporter/terra/submission/responder.py:48-52 | the notification for the transfer job an export job created names that export job again |
| Responders.RespondNack | exporter/terra/submission/responder.py:44-55 | a message naming no job is only nacked; a job unknown to ingest is checked and then nacked |
| Responders.RespondComplete | exporter/terra/submission/responder.py:53-63 | for a known job the transfer state is set to complete and the message acked, or the failing update's error propagates with no ack |
| Responders.RespondTraces | exporter/terra/submission/responder.py:44-63 | the calls made are one of: nack; check; check then nack; check then complete; check, complete then ack |
| Responders.RespondOrder | exporter/terra/submission/responder.py:44-63 | at most three calls; an ack is the last call and follows the update of the named job; a message is never both acked and nacked; no other call is made |
| Responders.TerraTransferResponder.constructor | exporter/terra/submission/responder.py:15-16 | the responder keeps the world its calls go to |
| Responders.TerraTransferResponder.HandleMessage | exporter/terra/submission/responder.py:44-63 | the world records exactly the calls of responding to the message and the method returns the outcome |
| Messages.ExperimentFromDict | exporter/terra/experiment/message.py:16-26 | parsing fails only with the experiment message parse error |
| Messages.ExperimentFromDictSpec | exporter/terra/experiment/message.py:16-26 | parsing succeeds exactly when the body is a dict with the six keys, each field taken from its key |
| Messages.ExperimentRoundTrip | exporter/terra/listener.py:26-50 | `from_dict(as_dict(m)) == m` |
| Messages.ExperimentAsDictFromDict | exporter/terra/listener.py:26-50 | `as_dict(from_dict(d))` is `d` restricted to the six message keys |
| Messages.SubmissionFromDictSpec | exporter/terra/submission/message.py:13-18 | any dict gives a message whose fields are the values of its five keys, None where a key is missing, and other keys are ignored |
| Messages.SubmissionFromNonDict | exporter/terra/submission/message.py:13-14 | a body that is not a dict fails on `.get` with an attribute error |
| TerraListeners.Decode | exporter/terra/listener.py:85 | a body that is not JSON fails with a decode error and a JSON body that is no experiment message with the message parse error |
| TerraListeners.UnparseableRejected | exporter/terra/listener.py:82-106 | a message that cannot be decoded is rejected without requeue and nothing else happens |
| TerraListeners.HandleExperimentOk | exporter/terra/listener.py:93-97 | a decoded message is first exported; it ends with exactly the export, entity, publish and ack calls, in order, exactly when none of them fails |
| TerraListeners.HandleExperimentRejects | exporter/terra/listener.py:93-106 | a decoded message is rejected exactly when one of its calls fails, the reject is then the last call, and an ack comes only after the whole sequence |
| TerraListeners.RescuedRuns | exporter/terra/listener.py:93-101 | a sequence of calls wrapped in the reject-on-error handler starts with its first call, and completes unrejected exactly when no call fails |
| TerraListeners.RescuedRejects | exporter/terra/listener.py:93-106 | for a sequence that ends in an ack, a reject happens exactly when a call fails, is the last call, and an ack means the whole sequence ran |
| TerraListeners.TerraListener.constructor | exporter/terra/listener.py:55-67 | the listener keeps the world its calls go to |
| TerraListeners.TerraListener.ExperimentMessageHandler | exporter/terra/listener.py:82-106 | the world records exactly the calls of handling the message, rejects included, and the method returns the outcome |
| TerraListeners.TerraListener.ExportExperiment | exporter/terra/listener.py:93-97 | the world records the export and completion calls in order, stopping at the first failure |
| TerraListeners.TerraListener.LogCompleteExperiment | exporter/terra/listener.py:108-114 | the world records the export entity, the publish of the message's dict and the ack, in order, stopping at the first failure |
| QueueListeners.UndecodableNotRejected | exporter/queue/listener.py:34-36 | a body that is not JSON, or JSON that is not a dict, fails before the `try` and is not rejected |
| QueueListeners.RejectsOnHandlerError | exporter/queue/listener.py:34-43 | a handler that succeeds is left alone; one that fails is followed by exactly one reject without requeue, whose own failure is the only error that escapes; the message is acked exactly when the handler acked it |
| QueueListeners.QueueListener.constructor | exporter/queue/listener.py:13-17 | a new listener has its handler and no connection |
| QueueListeners.QueueListener.AddConnection | exporter/queue/listener.py:19-21 | the listener keeps the connection and hands its producer to the handler |
| QueueListeners.QueueListener.TryHandleOrReject | exporter/queue/listener.py:34-43 | the world records exactly the calls of handling or rejecting the message and the method returns the outcome |
| Handlers.ContextOf | exporter/terra/experiment/handler.py:25-35 | building the logging context fails exactly when the body is not a dict, on `.get` |
| Handlers.ContextSpec | exporter/terra/experiment/handler.py:25-35 | the experiment handler's context has the submission, job, project and process ids and the index; the other handlers' contexts have submission, job and project ids, each read with `.get` |
| Handlers.ContextIndex | exporter/terra/experiment/handler.py:33 | the index entry is `{index}/{total}` and splits back into the two numbers |
| Handlers.ExperimentHandlerSpec | exporter/terra/experiment/handler.py:37-45 | an unparsable message fails with no call; otherwise the export, entity, publish and ack calls run in order, a prefix of them is made, an ack means all of them ran, and the handler succeeds exactly when none fails |
| Handlers.SubmissionHandlerSpec | exporter/terra/submission/handler.py:27-34 | the transfer start, the STARTED transfer state and the ack run in order, an ack means all ran, success exactly when none fails, and the state is only ever set to STARTED |
| Handlers.SpreadsheetExportHandlerSpec | exporter/terra/spreadsheet/handler.py:29-37 | generation is marked STARTED, the spreadsheet exported, generation marked COMPLETE and the message acked, in order; a failed export stops after STARTED; an ack means all ran; every state update is for the message's job |
| Handlers.GenerationHandlerSpec | exporter/ingest/spreadsheet/handler.py:24-31 | generation is started for the submission first, its id recorded on the job second, and an ack comes last and only after both succeeded |
| Handlers.GenerateSteps | exporter/ingest/spreadsheet/handler.py:27-31 | the calls are the start, then the recording of the id it returned, then the ack, stopping at the first failure |
| Handlers.ThreeCalls | exporter/terra/submission/handler.py:30-34 | three calls in a row make a prefix of the sequence, and the last runs only when the first two succeeded |
| Handlers.FourCalls | exporter/terra/spreadsheet/handler.py:32-37 | four calls in a row make a prefix of the sequence, and the last runs only when the first three succeeded |
| Handlers.HandlersNeverReject | exporter/queue/handler.py:10-11 | no handler rejects or nacks a message itself |
| Handlers.MessageHandler.constructor | exporter/queue/handler.py:7-8 | a new handler has no producer |
| Handlers.MessageHandler.AddProducer | exporter/queue/handler.py:13-14 | the handler keeps the producer it is given |
| Handlers.MessageHandler.HandleMessage | exporter/terra/experiment/handler.py:37-45 | the world records exactly the calls of the handler's kind and the method returns the outcome |
| ExperimentExporters.GraphRunIsStraightLine | exporter/terra/experiment/exporter.py:30-34 | after the fetches, the export is the straight-line sequence crawl, metadata writes, links write, staging-area write |
| ExperimentExporters.GraphRunOk | exporter/terra/experiment/exporter.py:30-34 | the graph part succeeds exactly when the crawl, every metadata write, the links write and the staging-area marker succeed, and then makes exactly those calls in that order; it only ever crawls or writes to the staging bucket |
| ExperimentExporters.StagedOk | exporter/terra/experiment/exporter.py:32-34 | the three write phases succeed together exactly when each does, and write only to the staging bucket |
| ExperimentExporters.ExportSpec | exporter/terra/experiment/exporter.py:24-34 | the process is fetched first and the related project second, each failure stopping the export with its error; after both the graph part runs |
| ExperimentExporters.ExportProcessFirst | exporter/terra/experiment/exporter.py:26 | the first call fetches the process, and its failure ends the export |
| ExperimentExporters.ExportProjectSecond | exporter/terra/experiment/exporter.py:27-34 | with the process fetched, the second call fetches its project; its failure ends the export, otherwise the graph part follows |
| ExperimentExporters.ExportNeverTransfers | exporter/terra/experiment/exporter.py:24-34 | an experiment export only fetches, crawls and writes to the staging bucket: it never starts a data transfer or touches a job |
| ExperimentExporters.ExportGraph | exporter/terra/experiment/exporter.py:30-34 | the world records exactly the calls of the graph part and the method returns its outcome |
| ExperimentExporters.TerraExperimentExporter.constructor | exporter/terra/experiment/exporter.py:12-20 | the exporter keeps its ingest service, crawler and storage client, which share one world |
| ExperimentExporters.TerraExperimentExporter.Export | exporter/terra/experiment/exporter.py:24-34 | the world records exactly the calls of the export and the method returns its outcome |
| TerraExporters.ComputeWaitTimeSpec | exporter/terra/exporter.py:55-57 | the next wait is double the last one, capped at ten minutes |
| TerraExporters.WaitTimes | exporter/terra/exporter.py:55-60 | from the start of two seconds the n-th wait is 2^(n+1) seconds up to the eighth and ten minutes from then on |
| TerraExporters.WaitTimesBounded | exporter/terra/exporter.py:55-60 | every wait is positive, at most ten minutes, and waits never shrink |
| TerraExporters.ExportDataSpec | exporter/terra/exporter.py:36 | data files are exported unless `Export metadata` is among the submit actions; no submit actions means they are |
| TerraExporters.WaitSpec | exporter/terra/exporter.py:52-71 | the exporter that created the transfer waits on the transfer job by name (2 s start, six hours at most) and then marks the transfer complete; any other exporter only waits on the job's transfer state; the transfer is marked complete only by the creator after a successful wait |
| TerraExporters.TransferPhaseSpec | exporter/terra/exporter.py:36-43 | without data export nothing is called; otherwise the job's transfer state is checked first, and the transfer started, right after the check, exactly when the check succeeds and says not complete |
| TerraExporters.TransferFailureWritesNothing | exporter/terra/exporter.py:39-43 | the transfer phase never crawls or writes to the staging bucket |
| TerraExporters.ExportFetchFails | exporter/terra/exporter.py:33-34 | a failed process or project fetch ends the export with its error after that call |
| TerraExporters.ExportFetches | exporter/terra/exporter.py:33-35 | with process and project fetched, the export begins with the process, project and submission fetches, in that order |
| TerraExporters.ExportSubmissionFails | exporter/terra/exporter.py:35 | a failed submission fetch ends the export after the three fetches, with its error |
| TerraExporters.ExportAfterSubmission | exporter/terra/exporter.py:35-50 | after the three fetches comes the transfer phase; its failure ends the export, and otherwise the graph part follows and decides the outcome |
| TerraExporters.TerraExporter.constructor | exporter/terra/exporter.py:16-28 | the exporter keeps its ingest service, crawler and storage client, which share one world |
| TerraExporters.TerraExporter.WaitForDataTransferToComplete | exporter/terra/exporter.py:54-71 | the world records exactly the calls of the wait and the method returns its outcome |
| TerraExporters.TerraExporter.ExportDataFiles | exporter/terra/exporter.py:39-43 | the world records exactly the calls of the transfer phase and the method returns its outcome |
| TerraExporters.TerraExporter.Export | exporter/terra/exporter.py:31-50 | the world records exactly the calls of the export and the method returns its outcome |
| SpreadsheetExporters.CrcTextSpec | exporter/terra/spreadsheet/exporter.py:73 | the crc32c is written as exactly eight lower-case hex digits whose value is the checksum |
| SpreadsheetExporters.FileRecordRead | exporter/terra/spreadsheet/exporter.py:62-107 | the file record reads back exactly when the schema URL holds a semver and the project's version is a valid date, and then is a `file` resource with the saved file's uuid, the project's dcp version, the record's content and dates, and the schema's last segment as concrete type |
| SpreadsheetExporters.FileRecordFields | exporter/terra/spreadsheet/exporter.py:74-87 | the record names the file `metadata_{project}.xlsx`, of type `xlsx`, with no cloud URL, the workbook's size and the project's dcp version |
| SpreadsheetExporters.FileRecordChecksums | exporter/terra/spreadsheet/exporter.py:80-85 | the record's checksums are exactly the four hashes: the saved SHA-256 and SHA-1, the eight-digit crc32c and the fixed S3 etag |
| SpreadsheetExporters.FileRecordCore | exporter/terra/spreadsheet/exporter.py:91-106 | the content is described by the schema URL, is of schema type `file`, and its file core names the workbook, format `xlsx`, source `DCP/2 Ingest` and the spreadsheet description |
| SpreadsheetExporters.FileVersionIsProjects | exporter/terra/spreadsheet/exporter.py:87 | the file's dcp version equals the project's |
| SpreadsheetExporters.CreateFileMetadataSpec | exporter/terra/spreadsheet/exporter.py:62-107 | one schema-URL call is made; its failure is passed on; otherwise the result is what `from_dict` makes of the file record, with the project's dates |
| SpreadsheetExporters.LinksStepsSpec | exporter/terra/spreadsheet/exporter.py:52-60 | the spreadsheet's links name the project as the supplemented entity and the file as its one supplementary file, and are written under the file's uuid and version |
| SpreadsheetExporters.DataStepsOfRecord | exporter/terra/spreadsheet/exporter.py:46-50 | the workbook bytes are written to `{project}/data/metadata_{project}.xlsx` in the staging bucket |
| SpreadsheetExporters.DataStepsOfName | exporter/terra/spreadsheet/exporter.py:47-50 | the data key is taken from the file record's `fileName` |
| SpreadsheetExporters.WriteToTerraParts | exporter/terra/spreadsheet/exporter.py:41-50 | the file's metadata is written first, then its links, then its bytes, each failure stopping the rest |
| SpreadsheetExporters.WriteToTerraOk | exporter/terra/spreadsheet/exporter.py:41-50 | writing to Terra only writes to the staging bucket, and success means every write was made |
| SpreadsheetExporters.ExportSpreadsheetErrors | exporter/terra/spreadsheet/exporter.py:25-39 | every failure of the export is reported as a spreadsheet export error, with the calls made unchanged |
| SpreadsheetExporters.ExportWorkbookFirst | exporter/terra/spreadsheet/exporter.py:28 | the workbook is downloaded first; its failure ends the export |
| SpreadsheetExporters.ExportProjectSecond | exporter/terra/spreadsheet/exporter.py:30 | with the workbook downloaded, the project is fetched second; its failure ends the export |
| SpreadsheetExporters.ExportAfterProject | exporter/terra/spreadsheet/exporter.py:28-36 | after the two fetches the file's record is created and written, and the export succeeds exactly when that part does |
| SpreadsheetExporters.ProjectExportSpec | exporter/terra/spreadsheet/exporter.py:30-36 | the project fetch comes before everything written, and its failure is passed on |
| SpreadsheetExporters.FileExportSpec | exporter/terra/spreadsheet/exporter.py:34-36 | the schema URL is asked for first; a record that cannot be created ends the export; otherwise the Terra writes follow |
| SpreadsheetExporters.ExportSpreadsheetWrites | exporter/terra/spreadsheet/exporter.py:25-50 | a successful export made exactly the workbook, project and schema calls followed by every Terra write, in order |
| SpreadsheetExporters.ExportOkFetched | exporter/terra/spreadsheet/exporter.py:28-36 | a successful export fetched the project and created and wrote the file |
| SpreadsheetExporters.FileExportOk | exporter/terra/spreadsheet/exporter.py:34-36 | a successful file export created the record and made every Terra write |
| SpreadsheetExporters.SpreadsheetExporter.constructor | exporter/terra/spreadsheet/exporter.py:19-21 | the exporter keeps its ingest service and storage client, which share one world |
| SpreadsheetExporters.SpreadsheetExporter.ExportSpreadsheet | exporter/terra/spreadsheet/exporter.py:25-39 | the world records exactly the calls of the export and the method returns its outcome, every failure as a spreadsheet export error |
| SpreadsheetExporters.SpreadsheetExporter.ExportBody | exporter/terra/spreadsheet/exporter.py:27-36 | the world records exactly the calls of the `try` body and the method returns its outcome |
| SpreadsheetExporters.SpreadsheetExporter.ExportProject | exporter/terra/spreadsheet/exporter.py:30-36 | the world records the project fetch and what follows it |
| SpreadsheetExporters.SpreadsheetExporter.ExportFile | exporter/terra/spreadsheet/exporter.py:34-36 | the world records the record creation and the Terra writes |
| SpreadsheetExporters.SpreadsheetExporter.CreateSupplementaryFileMetadata | exporter/terra/spreadsheet/exporter.py:62-107 | the world records the schema-URL call and the method returns the file resource built from the record |
| SpreadsheetExporters.SpreadsheetExporter.WriteToTerra | exporter/terra/spreadsheet/exporter.py:41-50 | the world records the metadata, links and data writes, stopping at the first failure |
| SpreadsheetExporters.SpreadsheetExporter.WriteLinks | exporter/terra/spreadsheet/exporter.py:52-60 | the world records the one links write of the spreadsheet's links |
| ManifestReceivers.ManifestExport | manifest/receiver.py:27-33 | the export call is made exactly when the body has the five keys and a string callback link, and then exports that process of that submission |
| ManifestReceivers.MalformedNeitherAckedNorRejected | manifest/receiver.py:25 | a body that is not JSON fails before the `try`: nothing is exported, acked or rejected |
| ManifestReceivers.MissingFieldRejected | manifest/receiver.py:27-38 | a body missing a field is rejected without requeue and nothing else happens |
| ManifestReceivers.ExportedThenNotified | manifest/receiver.py:33-44 | a failed export is rejected; a successful one notifies the state tracker, whose failure escapes unacked, and is then acked |
| ManifestReceivers.AckOnlyAfterNotify | manifest/receiver.py:21-44 | an ack is the third call, right after the state tracker is notified of this body, follows a successful export, and never comes with a reject |
| ManifestReceivers.ManifestReceiver.constructor | manifest/receiver.py:10-15 | the receiver keeps the world its calls go to |
| ManifestReceivers.ManifestReceiver.OnMessage | manifest/receiver.py:21-44 | the world records exactly the calls of receiving the message and the method returns the outcome |
| SpreadsheetExporters.ReadFileEntries | exporter/terra/spreadsheet/exporter.py:74-107 | reading back the record built for the spreadsheet succeeds exactly when the schema url is a string with a version and the project's dcpVersion parses; the resource is then a `file` carrying the record's uuid, content, dates and version, typed by the schema url's last segment |
| SpreadsheetExporters.DataOnlyWrites | exporter/terra/spreadsheet/exporter.py:46-50 | the spreadsheet upload writes only to the configured staging bucket |
| SpreadsheetExporters.LinksOnlyWrite | exporter/terra/spreadsheet/exporter.py:52-60 | writing the spreadsheet's supplementary-file links writes only to the configured staging bucket |

## Left out

- Threads and logging: the thread pool that dispatches messages, `prefetch_count`, the thread-local correlation context, the `exec_time` timing decorator and all logging. The model is sequential.
- The message-broker and Pub/Sub loops: the kombu consumer setup, the Pub/Sub subscriber loop and subscription creation. Messages reach the model as bodies, and `ack`, `reject` and `nack` are recorded calls.
- Startup and configuration: environment variables, credential files and the builders that wire clients together. Configuration values are parameters.
- Real time: `datetime.now` and `sleep`. The date of a transfer job, and the clock of the staging writer, are parameters.
- Foreign clients: the GCS, Storage Transfer and Pub/Sub clients and the ingest REST client are seen only through the calls the exporter makes on them. A call may raise or answer with any JSON value.
- The graph crawler, which is not part of this model: `generate_complete_experiment_graph` is a `Crawl` call that answers with the graph.
- The JSON-schema download and validation in `update_schema_info_and_validate`: the validator is a predicate parameter `valid`.
- The workbook and its temporary file: the openpyxl download and save, the file's size, the sha256, sha1 and crc32c digests and the two `uuid4` values are inputs, given as a `SavedSpreadsheet`.
- Calls the shown code makes on collaborators that are not part of this model are abstract calls with fixed outcomes. One is the Terra client's `wait_for_transfer_to_complete` (exporter/terra/exporter.py:64). The others are ingest-service calls that `exporter/ingest/service.py` does not define:
  - `is_data_transfer_complete`, `set_data_transfer_complete` and `wait_for_data_transfer_to_complete` (exporter/terra/exporter.py:39, 66, 70);
  - `set_spreadsheet_generation`, `start_spreadsheet_generation` and `set_spreadsheet_generation_id`.
- The orchestration modules (`Responders`, `Handlers`, `TerraListeners`) record three ingest operations as abstract calls: `JobExists`, `SetDataFileTransfer` and `CreateExportEntity`. `IngestServices.IngestService` specifies these same operations separately, as the HTTP requests they make. The model does not link the two, so a handler's trace shows which ingest operation it asked for, but not the request that operation sends.
- Call sites that do not match their callee. As written, each of these raises `TypeError` when it runs. The model treats each one as the abstract call it evidently means:
  - `write_to_staging_bucket` passes a bucket, a key and a stream to `GcsStorage.write`, which takes a key and data (exporter/terra/storage.py:78-79). It is a `StagingWrite` call of bucket, key and data.
  - `get_job` builds `ExportJob(dict)` from the response (exporter/ingest/service.py:37-39), which the four-field dataclass cannot do. It is a `GetExportJob` call whose answer is the expected assay count.
  - The spreadsheet handler calls `export_spreadsheet` with two arguments (exporter/terra/spreadsheet/handler.py:33) against a three-parameter definition. It is an `ExportSpreadsheet` call of the project and submission uuids.
  - Each concrete handler calls `super().__init__(name)` (exporter/terra/experiment/handler.py:20, exporter/terra/spreadsheet/handler.py:15, exporter/terra/submission/handler.py:13, exporter/ingest/spreadsheet/handler.py:11), but `MessageHandler.__init__` takes no argument (exporter/queue/handler.py:7). The base class also never sets the `self.logger` that `handle_message` uses. The model treats the call as the constructor it evidently means: `Handlers.MessageHandler.constructor` builds a handler with no producer, and logging is left out.
  - `TerraTransferClient.__init__` passes a `Credentials` object to `GcsTransfer` (exporter/terra/submission/client.py:20), whose constructor opens its argument as a file path (exporter/terra/gcs/transfer.py:17-20). Credentials are not modelled: the transfer client is given its `GcsTransfer` as a constructor argument.
- `GcsStorage.move_file` is not modelled, because nothing in the core calls it.
- `DataTransferState` and `ExportContextState` are not defined in the shown files. The model gives both the values `STARTED` and `COMPLETE` (`Effects.Progress`).
- Dates.ParseDateString: `strptime` also accepts fields that are not zero-padded (`2019-6-1T…`). The model reads only the zero-padded form, and rejects the rest with `ValueError`.
- Dates.ToDcpVersion: the rendering of a year below 1000 follows the C library's `%Y`, which does not pad. `Dates.ExampleThreeDigitYear` shows that such a version no longer parses.
- JSON floats are not modelled. A number is an integer, and `str()` is modelled only for strings, integers, booleans and `None` (`Json.PyStr`). Where the exporter formats a list or a dict into text, the model uses the empty string (`Json.PyStrText`).
- Descriptors.StrLowerIfSet: a truthy list or dict `crc32c` fails with `TypeError`, because the rendering of `str()` of a list or a dict is not modelled. Python lower-cases that rendering instead, so `Descriptors.ToDictSpec` reports a failure that Python does not raise for such a value.
- Resource.ReadResource: a `uuid.uuid` that is not a string is refused with `TypeError`, which `from_dict` turns into a metadata parse error. Python keeps such a value as it is. Uuids are strings throughout the model, because the exporter formats them into object keys and URLs.
- Strings.Lower: `Lower`, `Upper` and `IsDigit` treat ASCII only. Python's `.lower()`, `.upper()`, `int()` and the `\d` of `strptime` and `re` also accept other Unicode letters and digits.
- ExportJobs.PyInt: only an optional `-` followed by ASCII digits is read. Python's `int()` also accepts surrounding whitespace, a leading `+` and `_` between digits (`" 12"`, `"+5"`, `"1_000"`), which the model refuses with `ValueError`.
- The spreadsheet handlers' message classes (`SpreadsheetExporterMessage`, `SpreadsheetGeneratorMessage`) are not part of this model. They are assumed to read `exportJobId`, `projectUuid` and `submissionUuid` with `dict.get`, as `SubmissionExportMessage` does.
- `bucket_and_key_for_upload_area` is defined twice, identically, in exporter/terra/storage.py:97-102 and exporter/terra/submission/client.py:44-48. Both use the one definition `TerraStorages.BucketAndKeyForUploadArea`.
- TransferClients.TerraTransferClient.IsTransferDone follows the code as written: it lists the operations of the bare export job id, not of the job name `transferJobs/{id}` that `transfer_data_files` creates. `TransferClients.QueriedNameIsNotJobName` states that the two never coincide. The callers in the core do not use `is_transfer_done`, so the model does not correct it.
- Test expectations with no counterpart in the code are not modelled: the `job_exists_with_submission` staleness guard, an `ExportJob(dict)` constructor with defaults, a `SubmissionDoesNotHaveStagingArea` error and a transfer-job notification topic.
- Superseded copies of core logic are not modelled. These are exporter/metadata.py, exporter/scratch.py, the older graph, link-set and Terra client and listener modules, and the AWS uploader. The stub exporters whose bodies are `pass`, and the maintenance scripts, are not modelled either.

## Findings

| source | as written | input that shows it | evidently intended | confidence | as-written member | corrected member |
|---|---|---|---|---|---|---|
| exporter/ingest/export_job.py:52 | `ExportJob.from_dict` takes the job id as `href.split("/")[0]`, the text before the first `/` of the job's self link | a job whose self link is `http://x/exportJobs/j1` gets the job id `http:` | the job id is the last path segment of the self link, `j1` | not executed | ExportJobs.FromDictAsWritten, ExportJobs.JobIdAsWrittenOfUrl, ExportJobs.ExampleJobIdAsWritten | ExportJobs.FromDict, ExportJobs.FromDictOfJob, ExportJobs.ExampleJobIdCorrected |
