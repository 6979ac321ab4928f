/** `TerraExperimentExporter` (exporter/terra/experiment/exporter.py): exports
    the metadata of one experiment: the process, its project, and the graph
    crawled from the two, written to the staging bucket. */
module ExperimentExporters {
  import opened Wrappers
  import opened Json
  import opened Effects
  import Resource
  import TerraStorages
  import IngestServices

  /** What `generate_complete_experiment_graph` gives: the graph's nodes and
      its links, serialised, in order. */
  datatype CrawledGraph = CrawledGraph(nodes: seq<Resource.MetadataResource>, links: seq<Json>)

  /** The graph crawler is not part of this model: it is a function of the
      process and the project. */
  type Crawler = (Resource.MetadataResource, Resource.MetadataResource) -> CrawledGraph

  /** `experiment_graph.links.to_dict()` */
  function LinksDict(g: CrawledGraph): Json {
    JObj(map["links" := JArr(g.links)])
  }

  /** The write of the staging-area marker. */
  function StagingAreaWrite(project: string, config: TerraStorages.StorageConfig): Call {
    TerraStorages.WriteCall(config, TerraStorages.StagingAreaKey(project), TerraStorages.StagingAreaJson)
  }

  /** The crawl and the three writes of `export`: every node, then the links
      under the process's uuid and version, then the staging-area marker. */
  function GraphSteps(process: Resource.MetadataResource, project: Resource.MetadataResource, processUuid: string,
                      crawler: Crawler, config: TerraStorages.StorageConfig): seq<Step>
  {
    var g := crawler(process, project);
    [Do(Crawl(process.fullResource, project.fullResource))]
    + TerraStorages.MetadatasSteps(g.nodes, project.uuid, config)
    + TerraStorages.LinksSteps(LinksDict(g), processUuid, process.dcpVersion, project.uuid, config)
    + [Do(StagingAreaWrite(project.uuid, config))]
  }

  /** How the crawl and the writes go: the graph is crawled first, and a
      failed crawl writes nothing; a node that fails stops the export before
      the links; failing links stop it before the marker, which is written
      last. */
  function GraphRun(process: Resource.MetadataResource, project: Resource.MetadataResource, processUuid: string,
                    crawler: Crawler, config: TerraStorages.StorageConfig, env: Env): Execution
  {
    var g := crawler(process, project);
    Staged(Crawl(process.fullResource, project.fullResource),
      Run(TerraStorages.MetadatasSteps(g.nodes, project.uuid, config), env),
      Run(TerraStorages.LinksSteps(LinksDict(g), processUuid, process.dcpVersion, project.uuid, config), env),
      StagingAreaWrite(project.uuid, config), env)
  }

  /** The crawl, the run `m` of the node writes, the run `l` of the links
      write and the marker, each only when everything before succeeded. */
  function Staged(crawl: Call, m: Execution, l: Execution, marker: Call, env: Env): Execution {
    if crawl in env.failures then Execution([crawl], Err(env.failures[crawl]))
    else if m.result.Err? then Execution([crawl] + m.trace, m.result)
    else if l.result.Err? then Execution([crawl] + m.trace + l.trace, l.result)
    else Execution([crawl] + m.trace + l.trace + [marker], if marker in env.failures then Err(env.failures[marker]) else Ok(()))
  }

  /** What `export` does, given how the calls go. */
  function ExportRun(processUuid: string, crawler: Crawler, config: TerraStorages.StorageConfig, env: Env): Execution {
    var p := IngestServices.FetchMetadata("processes", processUuid, env);
    if p.value.Err? then Execution(p.trace, Err(p.value.error))
    else
      var q := IngestServices.FetchProjectForProcess(p.value.value, env);
      if q.value.Err? then Execution(p.trace + q.trace, Err(q.value.error))
      else
        var w := GraphRun(p.value.value, q.value.value, processUuid, crawler, config, env);
        Execution(p.trace + q.trace + w.trace, w.result)
  }

  /** That is the straight-line code of the crawl and the three writes. */
  lemma GraphRunIsStraightLine(process: Resource.MetadataResource, project: Resource.MetadataResource, processUuid: string,
                               crawler: Crawler, config: TerraStorages.StorageConfig, env: Env)
    ensures GraphRun(process, project, processUuid, crawler, config, env) ==
      Run(GraphSteps(process, project, processUuid, crawler, config), env)
  {
    var g := crawler(process, project);
    var a := [Do(Crawl(process.fullResource, project.fullResource))];
    var ms := TerraStorages.MetadatasSteps(g.nodes, project.uuid, config);
    var ls := TerraStorages.LinksSteps(LinksDict(g), processUuid, process.dcpVersion, project.uuid, config);
    var ss := [Do(StagingAreaWrite(project.uuid, config))];
    RunAppend(a + ms + ls, ss, env);
    RunAppend(a + ms, ls, env);
    RunAppend(a, ms, env);
  }

  /** The export completes exactly when the crawl, every node, the links and
      the marker are written, and then it made exactly those calls in that
      order; it only ever crawls and writes to the configured bucket. */
  lemma GraphRunOk(process: Resource.MetadataResource, project: Resource.MetadataResource, processUuid: string,
                   crawler: Crawler, config: TerraStorages.StorageConfig, env: Env)
    ensures var g := crawler(process, project);
      var crawl := Crawl(process.fullResource, project.fullResource);
      var ms := TerraStorages.MetadatasSteps(g.nodes, project.uuid, config);
      var ls := TerraStorages.LinksSteps(LinksDict(g), processUuid, process.dcpVersion, project.uuid, config);
      var x := GraphRun(process, project, processUuid, crawler, config, env);
      && (x.result.Ok? <==>
            crawl !in env.failures && Run(ms, env).result.Ok? && Run(ls, env).result.Ok?
            && StagingAreaWrite(project.uuid, config) !in env.failures)
      && (x.result.Ok? ==> x.trace == [crawl] + Calls(ms) + Calls(ls) + [StagingAreaWrite(project.uuid, config)])
      && (forall c :: c in x.trace ==> c == crawl || (c.StagingWrite? && c.bucket == config.bucketName))
  {
    var g := crawler(process, project);
    var ms := TerraStorages.MetadatasSteps(g.nodes, project.uuid, config);
    var ls := TerraStorages.LinksSteps(LinksDict(g), processUuid, process.dcpVersion, project.uuid, config);
    TerraStorages.MetadatasOnlyWrite(g.nodes, project.uuid, config);
    TerraStorages.LinksOnlyWrite(LinksDict(g), processUuid, process.dcpVersion, project.uuid, config);
    StagedOk(Crawl(process.fullResource, project.fullResource), StagingAreaWrite(project.uuid, config),
      ms, ls, env, config.bucketName);
  }

  /** The same for any two runs of steps that write only to `bucket`. */
  lemma StagedOk(crawl: Call, marker: Call, ms: seq<Step>, ls: seq<Step>, env: Env, bucket: string)
    requires marker.StagingWrite? && marker.bucket == bucket
    requires forall c :: c in Calls(ms) ==> c.StagingWrite? && c.bucket == bucket
    requires forall c :: c in Calls(ls) ==> c.StagingWrite? && c.bucket == bucket
    ensures var x := Staged(crawl, Run(ms, env), Run(ls, env), marker, env);
      && (x.result.Ok? <==> crawl !in env.failures && Run(ms, env).result.Ok? && Run(ls, env).result.Ok? && marker !in env.failures)
      && (x.result.Ok? ==> x.trace == [crawl] + Calls(ms) + Calls(ls) + [marker])
      && (forall c :: c in x.trace ==> c == crawl || (c.StagingWrite? && c.bucket == bucket))
  {
    RunOk(ms, env);
    RunOk(ls, env);
    PrefixCalls(ms, env);
    PrefixCalls(ls, env);
  }

  /** A run only makes calls its steps name. */
  lemma PrefixCalls(steps: seq<Step>, env: Env)
    ensures forall c :: c in Run(steps, env).trace ==> c in Calls(steps)
  {
    RunTracePrefix(steps, env);
    var t := Run(steps, env).trace;
    forall c | c in t
      ensures c in Calls(steps)
    {
      var i :| 0 <= i < |t| && t[i] == c;
      assert Calls(steps)[i] == c;
    }
  }

  /** `export` fetches the process by uuid, then the first project related to
      it, then runs the crawl and the writes on the two; a failed fetch
      writes nothing. */
  lemma ExportSpec(processUuid: string, crawler: Crawler, config: TerraStorages.StorageConfig, env: Env)
    ensures var x := ExportRun(processUuid, crawler, config, env);
      var p := IngestServices.FetchMetadata("processes", processUuid, env);
      && x.trace[0] == GetEntity("processes", JStr(processUuid))
      && (p.value.Err? ==> x == Execution([x.trace[0]], Err(p.value.error)))
      && (p.value.Ok? ==>
            var q := IngestServices.FetchProjectForProcess(p.value.value, env);
            && x.trace[1] == GetRelatedProjects(p.value.value.fullResource)
            && (q.value.Err? ==> x == Execution(x.trace[..2], Err(q.value.error)))
            && (q.value.Ok? ==>
                  x == Execution(x.trace[..2] + GraphRun(p.value.value, q.value.value, processUuid, crawler, config, env).trace,
                                 GraphRun(p.value.value, q.value.value, processUuid, crawler, config, env).result)))
  {
    ExportProcessFirst(processUuid, crawler, config, env);
    var p := IngestServices.FetchMetadata("processes", processUuid, env);
    if p.value.Ok? {
      ExportProjectSecond(processUuid, crawler, config, env);
    }
  }

  lemma ExportProcessFirst(processUuid: string, crawler: Crawler, config: TerraStorages.StorageConfig, env: Env)
    ensures var x := ExportRun(processUuid, crawler, config, env);
      var p := IngestServices.FetchMetadata("processes", processUuid, env);
      && x.trace[0] == GetEntity("processes", JStr(processUuid))
      && (p.value.Err? ==> x == Execution([x.trace[0]], Err(p.value.error)))
  {
    var p := IngestServices.FetchMetadata("processes", processUuid, env);
    assert p.trace == [GetEntity("processes", JStr(processUuid))];
  }

  lemma ExportProjectSecond(processUuid: string, crawler: Crawler, config: TerraStorages.StorageConfig, env: Env)
    requires IngestServices.FetchMetadata("processes", processUuid, env).value.Ok?
    ensures var x := ExportRun(processUuid, crawler, config, env);
      var p := IngestServices.FetchMetadata("processes", processUuid, env);
      var q := IngestServices.FetchProjectForProcess(p.value.value, env);
      && |x.trace| >= 2
      && x.trace[1] == GetRelatedProjects(p.value.value.fullResource)
      && (q.value.Err? ==> x == Execution(x.trace[..2], Err(q.value.error)))
      && (q.value.Ok? ==>
            x == Execution(x.trace[..2] + GraphRun(p.value.value, q.value.value, processUuid, crawler, config, env).trace,
                           GraphRun(p.value.value, q.value.value, processUuid, crawler, config, env).result))
  {
    var p := IngestServices.FetchMetadata("processes", processUuid, env);
    var q := IngestServices.FetchProjectForProcess(p.value.value, env);
    assert p.trace == [GetEntity("processes", JStr(processUuid))];
    assert q.trace == [GetRelatedProjects(p.value.value.fullResource)];
    assert p.trace + q.trace == ExportRun(processUuid, crawler, config, env).trace[..2];
  }

  /** This export never starts, checks or waits on a data transfer: it only
      fetches, crawls and writes to the bucket. */
  lemma ExportNeverTransfers(processUuid: string, crawler: Crawler, config: TerraStorages.StorageConfig, env: Env)
    ensures forall c :: c in ExportRun(processUuid, crawler, config, env).trace ==>
      c.GetEntity? || c.GetRelatedProjects? || c.Crawl? || (c.StagingWrite? && c.bucket == config.bucketName)
  {
    ExportSpec(processUuid, crawler, config, env);
    var x := ExportRun(processUuid, crawler, config, env);
    var p := IngestServices.FetchMetadata("processes", processUuid, env);
    if p.value.Ok? {
      var q := IngestServices.FetchProjectForProcess(p.value.value, env);
      if q.value.Ok? {
        var w := GraphRun(p.value.value, q.value.value, processUuid, crawler, config, env);
        GraphRunOk(p.value.value, q.value.value, processUuid, crawler, config, env);
        FetchesThenWrites(x.trace, w.trace, config.bucketName);
      } else {
        FetchesThenWrites(x.trace, [], config.bucketName);
      }
    }
  }

  /** Two fetches followed by crawls and writes to `bucket`. */
  lemma FetchesThenWrites(t: seq<Call>, w: seq<Call>, bucket: string)
    requires |t| >= 2 && t[0].GetEntity? && t[1].GetRelatedProjects? && t == t[..2] + w
    requires forall c :: c in w ==> c.Crawl? || (c.StagingWrite? && c.bucket == bucket)
    ensures forall c :: c in t ==>
      c.GetEntity? || c.GetRelatedProjects? || c.Crawl? || (c.StagingWrite? && c.bucket == bucket)
  {
    forall c | c in t
      ensures c.GetEntity? || c.GetRelatedProjects? || c.Crawl? || (c.StagingWrite? && c.bucket == bucket)
    {
      var i :| 0 <= i < |t| && t[i] == c;
      if i >= 2 {
        assert c == w[i - 2];
      }
    }
  }

  /** The crawl and the writes, as `export` makes them through the storage
      client. */
  method ExportGraph(terra: TerraStorages.TerraStorageClient, crawler: Crawler, process: Resource.MetadataResource,
                     project: Resource.MetadataResource, processUuid: string)
    returns (r: Result<()>)
    modifies terra.world
    ensures terra.world.trace == old(terra.world.trace) + GraphRun(process, project, processUuid, crawler, terra.config, terra.world.env).trace
    ensures r == GraphRun(process, project, processUuid, crawler, terra.config, terra.world.env).result
  {
    var world := terra.world;
    var g := crawler(process, project);
    var crawl := Crawl(process.fullResource, project.fullResource);
    ghost var t0 := world.trace;
    ghost var m := Run(TerraStorages.MetadatasSteps(g.nodes, project.uuid, terra.config), world.env);
    ghost var l := Run(TerraStorages.LinksSteps(LinksDict(g), processUuid, process.dcpVersion, project.uuid, terra.config), world.env);
    r := world.Fire(crawl);
    if r.Err? {
      return;
    }
    r := terra.WriteMetadatas(g.nodes, project.uuid);
    AppendAssoc(t0, [crawl], m.trace);
    if r.Err? {
      return;
    }
    r := terra.WriteLinksOf(LinksDict(g), processUuid, process.dcpVersion, project.uuid);
    AppendAssoc(t0, [crawl] + m.trace, l.trace);
    if r.Err? {
      return;
    }
    r := terra.WriteStagingAreaJson(project.uuid);
    AppendAssoc(t0, [crawl] + m.trace + l.trace, [StagingAreaWrite(project.uuid, terra.config)]);
  }

  class TerraExperimentExporter {
    const ingest: IngestServices.IngestService
    const crawler: Crawler
    const terra: TerraStorages.TerraStorageClient

    /** The ingest service and the storage client act on the same world. */
    constructor(ingest: IngestServices.IngestService, crawler: Crawler, terra: TerraStorages.TerraStorageClient)
      requires ingest.world == terra.world
      ensures this.ingest == ingest && this.crawler == crawler && this.terra == terra
    {
      this.ingest := ingest;
      this.crawler := crawler;
      this.terra := terra;
    }

    /** `export` */
    method Export(processUuid: string) returns (r: Result<()>)
      requires ingest.world == terra.world
      modifies ingest.world
      ensures ingest.world.trace == old(ingest.world.trace) + ExportRun(processUuid, crawler, terra.config, ingest.world.env).trace
      ensures r == ExportRun(processUuid, crawler, terra.config, ingest.world.env).result
    {
      ghost var t0 := ingest.world.trace;
      ghost var p := IngestServices.FetchMetadata("processes", processUuid, ingest.world.env);
      var process := ingest.GetMetadata("processes", processUuid);
      if process.Err? {
        return Err(process.error);
      }
      ghost var q := IngestServices.FetchProjectForProcess(process.value, ingest.world.env);
      var project := ingest.ProjectForProcess(process.value);
      AppendAssoc(t0, p.trace, q.trace);
      if project.Err? {
        return Err(project.error);
      }
      ghost var w := GraphRun(process.value, project.value, processUuid, crawler, terra.config, ingest.world.env);
      r := ExportGraph(terra, crawler, process.value, project.value, processUuid);
      AppendAssoc(t0, p.trace + q.trace, w.trace);
    }
  }
}
