/** `MetadataNodeSet` (exporter/graph/node_set.py): metadata resources kept
    unique by uuid, the first one stored for a uuid winning, in insertion
    order. */
module NodeSets {
  import opened UniqueLists
  import Resource

  function NodeUuid(r: Resource.MetadataResource): string { r.uuid }

  class MetadataNodeSet {
    var objUuids: set<string>
    var objs: seq<Resource.MetadataResource>

    /** `obj_uuids` is the set of uuids in `objs`, and no uuid is stored twice. */
    ghost predicate Valid()
      reads this
    {
      objUuids == KeysOf(objs, NodeUuid) && UniqueBy(objs, NodeUuid)
    }

    constructor()
      ensures Valid() && objs == []
    {
      objUuids := {};
      objs := [];
    }

    /** `__contains__`: membership by uuid only. */
    function Contains(item: Resource.MetadataResource): (b: bool)
      reads this
      requires Valid()
      ensures b <==> exists i :: 0 <= i < |objs| && objs[i].uuid == item.uuid
    {
      item.uuid in objUuids
    }

    /** `add_node` */
    method AddNode(node: Resource.MetadataResource)
      requires Valid()
      modifies this
      ensures Valid()
      ensures objs == Add(old(objs), node, NodeUuid)
      ensures objUuids == old(objUuids) + {node.uuid}
    {
      AddSpec(objs, node, NodeUuid);
      if node.uuid in objUuids {
      } else {
        objUuids := objUuids + {node.uuid};
        objs := objs + [node];
      }
    }

    /** `add_nodes`: `add_node` on each node in list order. */
    method AddNodes(nodes: seq<Resource.MetadataResource>)
      requires Valid()
      modifies this
      ensures Valid()
      ensures objs == AddAll(old(objs), nodes, NodeUuid)
    {
      for n := 0 to |nodes|
        invariant Valid()
        invariant objs == AddAll(old(objs), nodes[..n], NodeUuid)
      {
        AddAllSnoc(old(objs), nodes[..n], nodes[n], NodeUuid);
        assert nodes[..n + 1] == nodes[..n] + [nodes[n]];
        AddNode(nodes[n]);
      }
      assert nodes[..|nodes|] == nodes;
    }

    /** `get_nodes`: the stored nodes, in insertion order (resources are
        values, so the copies are the nodes themselves). */
    method GetNodes() returns (nodes: seq<Resource.MetadataResource>)
      ensures nodes == objs
    {
      nodes := objs;
    }
  }

  /** A node whose uuid is stored changes nothing; a new uuid is appended. */
  lemma AddNodeSpec(objs: seq<Resource.MetadataResource>, node: Resource.MetadataResource)
    requires UniqueBy(objs, NodeUuid)
    ensures node.uuid in KeysOf(objs, NodeUuid) ==> Add(objs, node, NodeUuid) == objs
    ensures node.uuid !in KeysOf(objs, NodeUuid) ==> Add(objs, node, NodeUuid) == objs + [node]
    ensures UniqueBy(Add(objs, node, NodeUuid), NodeUuid)
  {
    AddSpec(objs, node, NodeUuid);
  }

  /** Adding a list twice is adding it once, stored nodes keep their place,
      and a new node is kept exactly when it is the first of the list with
      its uuid. */
  lemma AddNodesSpec(objs: seq<Resource.MetadataResource>, nodes: seq<Resource.MetadataResource>,
                     node: Resource.MetadataResource)
    requires UniqueBy(objs, NodeUuid)
    ensures AddAll(AddAll(objs, nodes, NodeUuid), nodes, NodeUuid) == AddAll(objs, nodes, NodeUuid)
    ensures |objs| <= |AddAll(objs, nodes, NodeUuid)| && AddAll(objs, nodes, NodeUuid)[..|objs|] == objs
    ensures UniqueBy(AddAll(objs, nodes, NodeUuid), NodeUuid)
    ensures node.uuid !in KeysOf(objs, NodeUuid) ==>
      (node in AddAll(objs, nodes, NodeUuid) <==> FirstWithKey(nodes, NodeUuid, node))
  {
    AddAllIdempotent(objs, nodes, NodeUuid);
    AddAllKeepsPrefix(objs, nodes, NodeUuid);
    AddAllSpec(objs, nodes, NodeUuid);
    if node.uuid !in KeysOf(objs, NodeUuid) {
      AddAllMembers(objs, nodes, NodeUuid, node);
    }
  }
}
