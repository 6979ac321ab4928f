/** `LinkSet` (exporter/graph/link/link_set.py): the links of an experiment
    graph in a dict keyed by process uuid, or by supplemented entity id for a
    supplementary-file link; the last link written under a key wins. */
module LinkSets {
  import opened Json
  import opened OrderedMaps
  import opened GraphEntities
  import opened ProcessLinks

  /** A `ProcessLink` is shared by reference, as in the source; a
      supplementary-file link is a value. */
  datatype Link = ProcessEntry(process: ProcessLink) | SupplementaryEntry(supplementary: SupplementaryFileLink)

  /** The key `add_link` stores a link under. */
  function LinkKey(l: Link): string {
    match l
    case ProcessEntry(p) => p.processUuid
    case SupplementaryEntry(s) => s.supplementedEntity.entityId
  }

  /** The process links among `ls`, whose state `to_dict` reads. */
  function ProcessObjects(ls: seq<Link>): set<object> {
    set i | 0 <= i < |ls| && ls[i].ProcessEntry? :: ls[i].process
  }

  function LinkToDict(l: Link): Json
    reads if l.ProcessEntry? then {l.process} else {}
  {
    match l
    case ProcessEntry(p) => p.ToDict()
    case SupplementaryEntry(s) => SupplementaryLinkToDict(s)
  }

  function LinksToDicts(ls: seq<Link>): (ds: seq<Json>)
    reads ProcessObjects(ls)
    ensures |ds| == |ls|
    ensures forall i :: 0 <= i < |ls| ==> ds[i] == LinkToDict(ls[i])
    decreases |ls|
  {
    if ls == [] then []
    else
      assert ProcessObjects(ls[1..]) <= ProcessObjects(ls) by {
        forall o | o in ProcessObjects(ls[1..])
          ensures o in ProcessObjects(ls)
        {
          var i :| 0 <= i < |ls[1..]| && ls[1..][i].ProcessEntry? && ls[1..][i].process == o;
          assert ls[i + 1] == ls[1..][i];
        }
      }
      [LinkToDict(ls[0])] + LinksToDicts(ls[1..])
  }

  /** Every link is stored under its own key. */
  ghost predicate KeyedByLink(m: OrderedMap<Link>) {
    forall k :: k in m.values ==> LinkKey(m.values[k]) == k
  }

  class LinkSet {
    var links: OrderedMap<Link>

    ghost predicate Valid()
      reads this
    {
      OrderedMaps.Valid(links) && KeyedByLink(links)
    }

    constructor()
      ensures Valid() && links == Empty()
    {
      links := Empty();
    }

    /** `add_link`: `links[key] = link`. */
    method AddLink(link: Link)
      requires Valid()
      modifies this
      ensures Valid()
      ensures links == Put(old(links), LinkKey(link), link)
    {
      PutSpec(links, LinkKey(link), link);
      links := Put(links, LinkKey(link), link);
    }

    /** `add_links`: `add_link` on each link in order. */
    method AddLinks(ls: seq<Link>)
      requires Valid()
      modifies this
      ensures Valid()
      ensures links == PutAll(old(links), ls, LinkKey)
    {
      for n := 0 to |ls|
        invariant Valid()
        invariant links == PutAll(old(links), ls[..n], LinkKey)
      {
        PutAllSnoc(old(links), ls[..n], ls[n], LinkKey);
        assert ls[..n + 1] == ls[..n] + [ls[n]];
        AddLink(ls[n]);
      }
      assert ls[..|ls|] == ls;
    }

    /** `get_links`: the stored links in first-insertion order of their keys. */
    function GetLinks(): seq<Link>
      reads this
      requires Valid()
    {
      Values(links)
    }

    /** `to_dict`: one serialised link per key, in `get_links` order. */
    function ToDict(): (d: Json)
      reads this, ProcessObjects(Values(links))
      requires Valid()
      ensures d.JObj? && d.fields.Keys == {"links"} && d.fields["links"].JArr?
      ensures |d.fields["links"].items| == |links.keys|
      ensures forall i :: 0 <= i < |links.keys| ==>
        d.fields["links"].items[i] == LinkToDict(links.values[links.keys[i]])
    {
      JObj(map["links" := JArr(LinksToDicts(GetLinks()))])
    }
  }

  /** `add_link` keeps each link under its own key, replaces the link under
      its key and leaves every other key alone; the count grows by one
      exactly when the key was new; an overwritten link keeps its place in
      `get_links` and a new one is listed last. */
  lemma AddLinkSpec(m: OrderedMap<Link>, link: Link)
    requires OrderedMaps.Valid(m) && KeyedByLink(m)
    ensures var r := Put(m, LinkKey(link), link);
      && OrderedMaps.Valid(r) && KeyedByLink(r)
      && r.values[LinkKey(link)] == link
      && (forall k :: k != LinkKey(link) ==>
            (k in r.values <==> k in m.values) && (k in m.values ==> r.values[k] == m.values[k]))
      && |r.keys| == (if LinkKey(link) in m.values then |m.keys| else |m.keys| + 1)
      && (LinkKey(link) !in m.values ==> Values(r) == Values(m) + [link])
      && (forall i :: 0 <= i < |m.keys| && m.keys[i] == LinkKey(link) ==> Values(r) == Values(m)[i := link])
  {
    PutSpec(m, LinkKey(link), link);
    PutValues(m, LinkKey(link), link);
  }

  /** `add_links` keeps each link under its own key, and the last of the
      added links with a given key is the one stored. */
  lemma {:induction false} AddLinksSpec(m: OrderedMap<Link>, ls: seq<Link>)
    requires OrderedMaps.Valid(m) && KeyedByLink(m)
    ensures OrderedMaps.Valid(PutAll(m, ls, LinkKey)) && KeyedByLink(PutAll(m, ls, LinkKey))
    ensures forall i :: 0 <= i < |ls| && (forall j :: i < j < |ls| ==> LinkKey(ls[j]) != LinkKey(ls[i])) ==>
      LinkKey(ls[i]) in PutAll(m, ls, LinkKey).values && PutAll(m, ls, LinkKey).values[LinkKey(ls[i])] == ls[i]
    decreases |ls|
  {
    if ls != [] {
      AddLinkSpec(m, ls[0]);
      AddLinksSpec(Put(m, LinkKey(ls[0]), ls[0]), ls[1..]);
    }
    forall i | 0 <= i < |ls| && (forall j :: i < j < |ls| ==> LinkKey(ls[j]) != LinkKey(ls[i]))
      ensures LinkKey(ls[i]) in PutAll(m, ls, LinkKey).values && PutAll(m, ls, LinkKey).values[LinkKey(ls[i])] == ls[i]
    {
      PutAllLastWins(m, ls, LinkKey, i);
    }
  }
}
