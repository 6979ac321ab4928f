/** `ExperimentGraph` (exporter/graph/experiment.py): the links and metadata
    nodes exported for one experiment. */
module ExperimentGraphs {
  import opened Wrappers
  import opened OrderedMaps
  import opened UniqueLists
  import opened GraphEntities
  import opened NodeSets
  import opened LinkSets
  import Resource

  class ExperimentGraph {
    const links: LinkSet
    const nodes: MetadataNodeSet

    ghost predicate Valid()
      reads this, links, nodes
    {
      links.Valid() && nodes.Valid()
    }

    constructor()
      ensures Valid() && fresh(links) && fresh(nodes)
      ensures links.links == Empty() && nodes.objs == []
    {
      links := new LinkSet();
      nodes := new MetadataNodeSet();
    }

    /** `extend`: the other graph's links are added last-write-wins, then its
        nodes first-write-wins; the graph itself is returned. */
    method Extend(graph: ExperimentGraph) returns (r: ExperimentGraph)
      requires Valid() && graph.Valid()
      modifies links, nodes
      ensures r == this && Valid()
      ensures links.links == ExtendLinks(old(links.links), old(graph.links.links))
      ensures nodes.objs == ExtendNodes(old(nodes.objs), old(graph.nodes.objs))
    {
      // The two loops of the source are `add_links` and `add_nodes` over
      // snapshots of the other graph.
      var theirLinks := graph.links.GetLinks();
      links.AddLinks(theirLinks);
      var theirNodes := graph.nodes.GetNodes();
      nodes.AddNodes(theirNodes);
      r := this;
    }
  }

  /** The links after `extend`: the other graph's links written in its order. */
  function ExtendLinks(mine: OrderedMap<Link>, theirs: OrderedMap<Link>): OrderedMap<Link>
    requires OrderedMaps.Valid(theirs)
  {
    PutAll(mine, Values(theirs), LinkKey)
  }

  /** The nodes after `extend`. */
  function ExtendNodes(mine: seq<Resource.MetadataResource>, theirs: seq<Resource.MetadataResource>): seq<Resource.MetadataResource> {
    AddAll(mine, theirs, NodeUuid)
  }

  /** Each link of the other graph is stored under its own key. */
  lemma TheirLinkKeys(theirs: OrderedMap<Link>)
    requires OrderedMaps.Valid(theirs) && KeyedByLink(theirs)
    ensures forall j :: 0 <= j < |theirs.keys| ==> LinkKey(Values(theirs)[j]) == theirs.keys[j]
  {
  }

  /** For a key both graphs hold, the other graph's link replaces this one's;
      a key only this graph holds keeps its link; this graph's links keep
      their order. */
  lemma ExtendLinksSpec(mine: OrderedMap<Link>, theirs: OrderedMap<Link>, k: string)
    requires OrderedMaps.Valid(mine) && KeyedByLink(mine)
    requires OrderedMaps.Valid(theirs) && KeyedByLink(theirs)
    ensures OrderedMaps.Valid(ExtendLinks(mine, theirs)) && KeyedByLink(ExtendLinks(mine, theirs))
    ensures |mine.keys| <= |ExtendLinks(mine, theirs).keys| && ExtendLinks(mine, theirs).keys[..|mine.keys|] == mine.keys
    ensures k in theirs.values ==>
      k in ExtendLinks(mine, theirs).values && ExtendLinks(mine, theirs).values[k] == theirs.values[k]
    ensures k !in theirs.values ==>
      (k in ExtendLinks(mine, theirs).values <==> k in mine.values)
      && (k in mine.values ==> ExtendLinks(mine, theirs).values[k] == mine.values[k])
  {
    AddLinksSpec(mine, Values(theirs));
    PutAllKeepsOrder(mine, Values(theirs), LinkKey);
    if k in theirs.values {
      ExtendLinksShared(mine, theirs, k);
    } else {
      ExtendLinksOwn(mine, theirs, k);
    }
  }

  lemma ExtendLinksShared(mine: OrderedMap<Link>, theirs: OrderedMap<Link>, k: string)
    requires OrderedMaps.Valid(theirs) && KeyedByLink(theirs) && k in theirs.values
    ensures k in ExtendLinks(mine, theirs).values && ExtendLinks(mine, theirs).values[k] == theirs.values[k]
  {
    var vs := Values(theirs);
    TheirLinkKeys(theirs);
    var i :| 0 <= i < |theirs.keys| && theirs.keys[i] == k;
    assert forall j :: i < j < |vs| ==> LinkKey(vs[j]) != LinkKey(vs[i]);
    PutAllLastWins(mine, vs, LinkKey, i);
  }

  lemma ExtendLinksOwn(mine: OrderedMap<Link>, theirs: OrderedMap<Link>, k: string)
    requires OrderedMaps.Valid(theirs) && KeyedByLink(theirs) && k !in theirs.values
    ensures k in ExtendLinks(mine, theirs).values <==> k in mine.values
    ensures k in mine.values ==> ExtendLinks(mine, theirs).values[k] == mine.values[k]
  {
    TheirLinkKeys(theirs);
    PutAllUntouched(mine, Values(theirs), LinkKey, k);
  }

  /** For a uuid both graphs hold, this graph's node survives; the other
      graph's new nodes follow in its order; extending twice is extending
      once. */
  lemma ExtendNodesSpec(mine: seq<Resource.MetadataResource>, theirs: seq<Resource.MetadataResource>)
    requires UniqueBy(mine, NodeUuid)
    ensures UniqueBy(ExtendNodes(mine, theirs), NodeUuid)
    ensures |mine| <= |ExtendNodes(mine, theirs)| && ExtendNodes(mine, theirs)[..|mine|] == mine
    ensures KeysOf(ExtendNodes(mine, theirs), NodeUuid) == KeysOf(mine, NodeUuid) + KeysOf(theirs, NodeUuid)
    ensures ExtendNodes(ExtendNodes(mine, theirs), theirs) == ExtendNodes(mine, theirs)
  {
    AddAllSpec(mine, theirs, NodeUuid);
    AddAllKeepsPrefix(mine, theirs, NodeUuid);
    AddAllIdempotent(mine, theirs, NodeUuid);
  }

  /** Extending with an empty graph changes nothing. */
  lemma ExtendEmpty(mine: OrderedMap<Link>, objs: seq<Resource.MetadataResource>)
    ensures ExtendLinks(mine, Empty()) == mine
    ensures ExtendNodes(objs, []) == objs
  {
    assert Values<Link>(Empty()) == [];
  }

  /** The `(concrete_type, uuid)` of each file, in order. */
  function SupplementaryFiles(files: seq<Resource.MetadataResource>): (r: Result<seq<SupplementaryFile>>)
    ensures r.Ok? <==> AllTyped(files)
    ensures r.Ok? ==> |r.value| == |files|
    ensures r.Ok? ==> forall i :: 0 <= i < |files| ==>
      Resource.ConcreteType(files[i]).Ok?
      && r.value[i] == SupplementaryFile(Resource.ConcreteType(files[i]).value, files[i].uuid)
    decreases |files|
  {
    if files == [] then Ok([])
    else
      var head := Resource.ConcreteType(files[0]);
      var tail := SupplementaryFiles(files[1..]);
      AllTypedCons(files);
      if head.Err? then Err(head.error)
      else if tail.Err? then Err(tail.error)
      else
        SupplementaryCons(files, head.value, tail.value);
        Ok([SupplementaryFile(head.value, files[0].uuid)] + tail.value)
  }

  /** Every file has a concrete type. */
  predicate AllTyped(files: seq<Resource.MetadataResource>) {
    forall i :: 0 <= i < |files| ==> Resource.ConcreteType(files[i]).Ok?
  }

  lemma AllTypedCons(files: seq<Resource.MetadataResource>)
    requires files != []
    ensures AllTyped(files) <==> Resource.ConcreteType(files[0]).Ok? && AllTyped(files[1..])
  {
    AllOkCons(files, Resource.ConcreteType);
  }

  lemma AllOkCons<T, U>(xs: seq<T>, f: T -> Result<U>)
    requires xs != []
    ensures (forall i :: 0 <= i < |xs| ==> f(xs[i]).Ok?)
        <==> f(xs[0]).Ok? && (forall i :: 0 <= i < |xs[1..]| ==> f(xs[1..][i]).Ok?)
  {
    assert forall i :: 1 <= i < |xs| ==> xs[i] == xs[1..][i - 1];
  }

  lemma SupplementaryCons(files: seq<Resource.MetadataResource>, t: string, rest: seq<SupplementaryFile>)
    requires files != [] && Resource.ConcreteType(files[0]) == Ok(t)
    requires |rest| == |files| - 1
    requires forall i :: 0 <= i < |files| - 1 ==>
      Resource.ConcreteType(files[1..][i]).Ok?
      && rest[i] == SupplementaryFile(Resource.ConcreteType(files[1..][i]).value, files[1..][i].uuid)
    ensures var r := [SupplementaryFile(t, files[0].uuid)] + rest;
      forall i :: 0 <= i < |files| ==>
        Resource.ConcreteType(files[i]).Ok?
        && r[i] == SupplementaryFile(Resource.ConcreteType(files[i]).value, files[i].uuid)
  {
    ConsPointwise(files, t, rest, Resource.ConcreteType, (f: Resource.MetadataResource, t: string) => SupplementaryFile(t, f.uuid));
  }

  /** Prepending the image of the head to the images of the tail gives the
      images of the whole. */
  lemma ConsPointwise<T, U>(xs: seq<T>, t: string, rest: seq<U>, f: T -> Result<string>, g: (T, string) -> U)
    requires xs != [] && f(xs[0]) == Ok(t)
    requires |rest| == |xs| - 1
    requires forall i :: 0 <= i < |xs| - 1 ==> f(xs[1..][i]).Ok? && rest[i] == g(xs[1..][i], f(xs[1..][i]).value)
    ensures var r := [g(xs[0], t)] + rest;
      forall i :: 0 <= i < |xs| ==> f(xs[i]).Ok? && r[i] == g(xs[i], f(xs[i]).value)
  {
    var r := [g(xs[0], t)] + rest;
    forall i | 0 <= i < |xs|
      ensures f(xs[i]).Ok? && r[i] == g(xs[i], f(xs[i]).value)
    {
      if i > 0 {
        assert xs[i] == xs[1..][i - 1] && r[i] == rest[i - 1];
      }
    }
  }

  /** `supplementary_file_link_for` */
  function SupplementaryFileLinkFor(info: SupplementaryFilesInfo): (r: Result<SupplementaryFileLink>)
    ensures r.Ok? <==> Resource.ConcreteType(info.forEntity).Ok? && SupplementaryFiles(info.files).Ok?
    ensures r.Ok? ==>
      && r.value.supplementedEntity == SupplementedEntity(Resource.ConcreteType(info.forEntity).value, info.forEntity.uuid)
      && r.value.files == SupplementaryFiles(info.files).value
  {
    var files :- SupplementaryFiles(info.files);
    var entityType :- Resource.ConcreteType(info.forEntity);
    Ok(SupplementaryFileLink(SupplementedEntity(entityType, info.forEntity.uuid), files))
  }

  /** `from_supplementary_files_info`: a fresh graph holding the files and
      then the project as nodes, and the one supplementary-file link. */
  method FromSupplementaryFilesInfo(info: SupplementaryFilesInfo, project: Resource.MetadataResource)
    returns (r: Result<ExperimentGraph>)
    ensures r.Ok? <==> SupplementaryFileLinkFor(info).Ok?
    ensures r.Err? ==> r.error == SupplementaryFileLinkFor(info).error
    ensures r.Ok? ==>
      && fresh(r.value) && fresh(r.value.links) && fresh(r.value.nodes) && r.value.Valid()
      && r.value.nodes.objs == AddAll([], info.files + [project], NodeUuid)
      && r.value.links.links == Put(Empty(), info.forEntity.uuid, SupplementaryEntry(SupplementaryFileLinkFor(info).value))
  {
    var graph := new ExperimentGraph();
    graph.nodes.AddNodes(info.files + [project]);
    var link := SupplementaryFileLinkFor(info);
    if link.Err? {
      return Err(link.error);
    }
    graph.links.AddLink(SupplementaryEntry(link.value));
    r := Ok(graph);
  }

  /** That graph holds exactly one link, under the supplemented entity's
      uuid. */
  lemma FromSupplementaryFilesInfoLink(info: SupplementaryFilesInfo, link: SupplementaryFileLink)
    requires SupplementaryFileLinkFor(info) == Ok(link)
    ensures var m := Put(Empty(), info.forEntity.uuid, SupplementaryEntry(link));
      && m.keys == [info.forEntity.uuid] && Values(m) == [SupplementaryEntry(link)]
      && LinkKey(SupplementaryEntry(link)) == info.forEntity.uuid
  {
    PutEmpty(info.forEntity.uuid, SupplementaryEntry(link));
    assert link.supplementedEntity.entityId == info.forEntity.uuid;
  }

  /** Its nodes hold each uuid among the files and the project once. */
  lemma FromSupplementaryFilesInfoNodes(files: seq<Resource.MetadataResource>, project: Resource.MetadataResource)
    ensures KeysOf(AddAll([], files + [project], NodeUuid), NodeUuid) == KeysOf(files + [project], NodeUuid)
    ensures UniqueBy(AddAll([], files + [project], NodeUuid), NodeUuid)
  {
    AddAllSpec([], files + [project], NodeUuid);
    assert KeysOf([], NodeUuid) == {};
  }
}
