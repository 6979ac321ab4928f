/** `ProcessLink` (exporter/graph/process_link.py): a process with its
    inputs, outputs and protocols, each list kept unique by uuid with the
    first entry for a uuid winning. */
module ProcessLinks {
  import opened Json
  import opened UniqueLists
  import opened GraphEntities

  class ProcessLink {
    const processUuid: string
    const processType: string
    var inputs: seq<Input>
    var outputs: seq<Output>
    var protocols: seq<ProtocolLink>
    var inputUuids: set<string>
    var outputUuids: set<string>
    var protocolUuids: set<string>

    /** Each private uuid set is the set of uuids in its list, and no list
        holds two entries with one uuid. */
    ghost predicate Valid()
      reads this
    {
      && inputUuids == KeysOf(inputs, InputUuid) && UniqueBy(inputs, InputUuid)
      && outputUuids == KeysOf(outputs, OutputUuid) && UniqueBy(outputs, OutputUuid)
      && protocolUuids == KeysOf(protocols, ProtocolUuid) && UniqueBy(protocols, ProtocolUuid)
    }

    /** Construction adds the given entries one by one, so each list keeps the
        first entry for each uuid, in the order given. */
    constructor(processUuid: string, processType: string,
                inputs: seq<Input>, outputs: seq<Output>, protocols: seq<ProtocolLink>)
      ensures Valid()
      ensures this.processUuid == processUuid && this.processType == processType
      ensures this.inputs == AddAll([], inputs, InputUuid)
      ensures this.outputs == AddAll([], outputs, OutputUuid)
      ensures this.protocols == AddAll([], protocols, ProtocolUuid)
    {
      this.processUuid := processUuid;
      this.processType := processType;
      this.inputs := [];
      this.outputs := [];
      this.protocols := [];
      this.inputUuids := {};
      this.outputUuids := {};
      this.protocolUuids := {};
      new;
      AddInputs(inputs);
      AddOutputs(outputs);
      AddProtocols(protocols);
    }

    /** `for i in inputs: self.add_input(i)` */
    method AddInputs(xs: seq<Input>)
      requires Valid()
      modifies this
      ensures Valid()
      ensures inputs == AddAll(old(inputs), xs, InputUuid)
      ensures outputs == old(outputs) && protocols == old(protocols)
    {
      ghost var start := inputs;
      for n := 0 to |xs|
        invariant Valid() && outputs == old(outputs) && protocols == old(protocols)
        invariant inputs == AddAll(start, xs[..n], InputUuid)
      {
        AddAllSnoc(start, xs[..n], xs[n], InputUuid);
        assert xs[..n + 1] == xs[..n] + [xs[n]];
        AddInput(xs[n]);
      }
      assert xs[..|xs|] == xs;
    }

    /** `for o in outputs: self.add_output(o)` */
    method AddOutputs(xs: seq<Output>)
      requires Valid()
      modifies this
      ensures Valid()
      ensures outputs == AddAll(old(outputs), xs, OutputUuid)
      ensures inputs == old(inputs) && protocols == old(protocols)
    {
      ghost var start := outputs;
      for n := 0 to |xs|
        invariant Valid() && inputs == old(inputs) && protocols == old(protocols)
        invariant outputs == AddAll(start, xs[..n], OutputUuid)
      {
        AddAllSnoc(start, xs[..n], xs[n], OutputUuid);
        assert xs[..n + 1] == xs[..n] + [xs[n]];
        AddOutput(xs[n]);
      }
      assert xs[..|xs|] == xs;
    }

    /** `for p in protocols: self.add_protocol(p)` */
    method AddProtocols(xs: seq<ProtocolLink>)
      requires Valid()
      modifies this
      ensures Valid()
      ensures protocols == AddAll(old(protocols), xs, ProtocolUuid)
      ensures inputs == old(inputs) && outputs == old(outputs)
    {
      ghost var start := protocols;
      for n := 0 to |xs|
        invariant Valid() && inputs == old(inputs) && outputs == old(outputs)
        invariant protocols == AddAll(start, xs[..n], ProtocolUuid)
      {
        AddAllSnoc(start, xs[..n], xs[n], ProtocolUuid);
        assert xs[..n + 1] == xs[..n] + [xs[n]];
        AddProtocol(xs[n]);
      }
      assert xs[..|xs|] == xs;
    }

    /** `add_input`: appended and recorded unless its uuid is present. */
    method AddInput(i: Input)
      requires Valid()
      modifies this
      ensures Valid()
      ensures inputs == Add(old(inputs), i, InputUuid)
      ensures inputUuids == old(inputUuids) + {i.inputUuid}
      ensures outputs == old(outputs) && protocols == old(protocols)
      ensures outputUuids == old(outputUuids) && protocolUuids == old(protocolUuids)
    {
      AddSpec(inputs, i, InputUuid);
      if i.inputUuid !in inputUuids {
        inputUuids := inputUuids + {i.inputUuid};
        inputs := inputs + [i];
      }
    }

    /** `add_output`: appended and recorded unless its uuid is present. */
    method AddOutput(o: Output)
      requires Valid()
      modifies this
      ensures Valid()
      ensures outputs == Add(old(outputs), o, OutputUuid)
      ensures outputUuids == old(outputUuids) + {o.outputUuid}
      ensures inputs == old(inputs) && protocols == old(protocols)
      ensures inputUuids == old(inputUuids) && protocolUuids == old(protocolUuids)
    {
      AddSpec(outputs, o, OutputUuid);
      if o.outputUuid !in outputUuids {
        outputUuids := outputUuids + {o.outputUuid};
        outputs := outputs + [o];
      }
    }

    /** `add_protocol`: appended and recorded unless its uuid is present. */
    method AddProtocol(p: ProtocolLink)
      requires Valid()
      modifies this
      ensures Valid()
      ensures protocols == Add(old(protocols), p, ProtocolUuid)
      ensures protocolUuids == old(protocolUuids) + {p.protocolUuid}
      ensures inputs == old(inputs) && outputs == old(outputs)
      ensures inputUuids == old(inputUuids) && outputUuids == old(outputUuids)
    {
      AddSpec(protocols, p, ProtocolUuid);
      if p.protocolUuid !in protocolUuids {
        protocolUuids := protocolUuids + {p.protocolUuid};
        protocols := protocols + [p];
      }
    }

    /** `to_dict` */
    function ToDict(): Json
      reads this
    {
      ProcessLinkDict(processUuid, processType, inputs, outputs, protocols)
    }
  }

  /** The serialisation of a process link with the given fields. */
  function ProcessLinkDict(processUuid: string, processType: string,
                           inputs: seq<Input>, outputs: seq<Output>, protocols: seq<ProtocolLink>): Json {
    JObj(map[
      "link_type" := JStr("process_link"),
      "process_id" := JStr(processUuid),
      "process_type" := JStr(processType),
      "inputs" := JArr(seq(|inputs|, i requires 0 <= i < |inputs| => InputToDict(inputs[i]))),
      "outputs" := JArr(seq(|outputs|, i requires 0 <= i < |outputs| => OutputToDict(outputs[i]))),
      "protocols" := JArr(seq(|protocols|, i requires 0 <= i < |protocols| => ProtocolToDict(protocols[i])))])
  }

  /** The dict is marked "process_link", carries the process uuid as
      `process_id`, and serialises the three lists in order, entry for
      entry. */
  lemma ProcessLinkDictSpec(processUuid: string, processType: string,
                            inputs: seq<Input>, outputs: seq<Output>, protocols: seq<ProtocolLink>)
    ensures var d := ProcessLinkDict(processUuid, processType, inputs, outputs, protocols).fields;
      && d.Keys == {"link_type", "process_id", "process_type", "inputs", "outputs", "protocols"}
      && d["link_type"] == JStr("process_link") && d["process_id"] == JStr(processUuid)
      && d["process_type"] == JStr(processType)
      && |d["inputs"].items| == |inputs| && |d["outputs"].items| == |outputs|
      && |d["protocols"].items| == |protocols|
      && (forall i :: 0 <= i < |inputs| ==> d["inputs"].items[i] == InputToDict(inputs[i]))
      && (forall i :: 0 <= i < |outputs| ==> d["outputs"].items[i] == OutputToDict(outputs[i]))
      && (forall i :: 0 <= i < |protocols| ==> d["protocols"].items[i] == ProtocolToDict(protocols[i]))
  {
  }

  /** A constructed link lists each input uuid once, and an input is listed
      exactly when it is the first given with its uuid. */
  lemma ConstructedInputs(given: seq<Input>, i: Input)
    ensures UniqueBy(AddAll([], given, InputUuid), InputUuid)
    ensures KeysOf(AddAll([], given, InputUuid), InputUuid) == KeysOf(given, InputUuid)
    ensures i in AddAll([], given, InputUuid) <==> FirstWithKey(given, InputUuid, i)
  {
    AddAllSpec([], given, InputUuid);
    AddAllMembers([], given, InputUuid, i);
    assert KeysOf([], InputUuid) == {};
  }
}
