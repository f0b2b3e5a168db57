/** A group bucket and a flow on the same pipeline tables (p4src/openflow.p4): the
    bucket's entries are keyed by group and port, the group-egress table adds its
    bits, and the packet has both action lists performed. */
module Buckets {
  import opened OpenFlow
  import opened Signature
  import opened Parse
  import opened Packets
  import opened Pipeline
  import opened Compiler
  import opened GroupOrder

  /** The key of a bucket's pipeline entries: a group and a port, for packets of any flow. */
  function BucketKey(groupId: bv32, port: bv32): Key {
    Key(None, Some(groupId), Some(port))
  }

  /** For a list under a key there is one entry in each header table of a type in the list, and no other. */
  ghost predicate InstalledExactly(tables: Tables, key: Key, actions: seq<Action>) {
    forall name: TableName | name != TOutput ::
      Own(Entries(tables, name), key) ==
      if LastOf(actions, name.Type()).Some? then [Entry(key, Bound(name, Compile(actions).args))] else []
  }

  /** No entry but those of the flow and of the bucket matches the packet. */
  ghost predicate NoOthers(tables: Tables, id: FlowId, groupId: bv32, port: bv32) {
    forall name: TableName, e | name != TOutput && e in Entries(tables, name) ::
      e.key == FlowKey(id) || e.key == BucketKey(groupId, port) || !e.key.Matches(Index(id), groupId, port)
  }

  /** The packet of a flow on a port, where a bucket has its entries beside those of the flow. */
  ghost predicate Beside(tables: Tables, id: FlowId, flow: seq<Action>, bucket: seq<Action>, m: Metadata, port: bv32)
  {
    && m.index == Index(id) && m.bmap == Compile(flow).sig
    && InstalledExactly(tables, FlowKey(id), flow)
    && InstalledExactly(tables, BucketKey(m.groupId, port), bucket)
    && NoOthers(tables, id, m.groupId, port)
  }

  /** And the bucket is that of the packet's group on the port. */
  ghost predicate Joined(groups: GroupTables, tables: Tables, id: FlowId, flow: seq<Action>, bucket: seq<Action>,
          m: Metadata, port: bv32)
  {
    && Beside(tables, id, flow, bucket, m, port)
    && GroupPort(m.groupId, port) in groups.egress
    && groups.egress[GroupPort(m.groupId, port)] == Compile(bucket).sig
  }

  lemma {:induction false} LookupOnly(entries: seq<Entry>, key: Key, other: Key, index: bv32, groupId: bv32,
          port: bv32)
    requires key.Matches(index, groupId, port)
    requires forall e :: e in entries ==> e.key == key || e.key == other || !e.key.Matches(index, groupId, port)
    requires Own(entries, other) == []
    ensures var own := Own(entries, key);
            Lookup(entries, index, groupId, port) == if own == [] then Nop else own[0].action
  {
    if entries != [] {
      assert entries[0].key != other;
      LookupOnly(entries[1..], key, other, index, groupId, port);
    }
  }

  lemma JoinedLookup(tables: Tables, id: FlowId, flow: seq<Action>, bucket: seq<Action>, m: Metadata, port: bv32,
          name: TableName)
    requires Beside(tables, id, flow, bucket, m, port) && Disjoint(flow, bucket) && name != TOutput
    requires LastOf(flow + bucket, name.Type()).Some?
    ensures Lookup(Entries(tables, name), m.index, m.groupId, port) ==
            Counterpart(name, LastOf(flow + bucket, name.Type()).value)
  {
    var flowKey, bucketKey := FlowKey(id), BucketKey(m.groupId, port);
    LastOfAppend(flow, bucket, name.Type());
    if LastOf(flow, name.Type()).Some? {
      LookupOnly(Entries(tables, name), flowKey, bucketKey, m.index, m.groupId, port);
      BoundIsCounterpart(flow, name);
    } else {
      LookupOnly(Entries(tables, name), bucketKey, flowKey, m.index, m.groupId, port);
      BoundIsCounterpart(bucket, name);
    }
  }

  lemma JoinedBits(merged: bv32, flow: seq<Action>, bucket: seq<Action>, ty: ActionType)
    requires HasBitsOf(merged, Compile(flow).sig, Compile(bucket).sig)
    ensures CheckBit(merged, ty.Code()) <==> LastOf(flow + bucket, ty).Some?
  {
    CompiledType(flow, ty);
    CompiledType(bucket, ty);
    LastOfAppend(flow, bucket, ty);
  }

  lemma JoinedSelects(groups: GroupTables, tables: Tables, id: FlowId, flow: seq<Action>, bucket: seq<Action>,
          m: Metadata, port: bv32)
    requires Joined(groups, tables, id, flow, bucket, m, port) && Disjoint(flow, bucket)
    ensures Selects(tables, WithGroupBits(groups, m, port), port, flow + bucket)
  {
    var merged := WithGroupBits(groups, m, port);
    GroupHit(groups, m, port);
    GroupBits(groups, m, port);
    forall name: TableName | name != TOutput
      ensures CheckBit(merged.bmap, name.Type().Code()) <==> LastOf(flow + bucket, name.Type()).Some?
      ensures LastOf(flow + bucket, name.Type()).Some? ==>
                Lookup(Entries(tables, name), merged.index, merged.groupId, port) ==
                Counterpart(name, LastOf(flow + bucket, name.Type()).value)
    {
      JoinedBits(merged.bmap, flow, bucket, name.Type());
      if LastOf(flow + bucket, name.Type()).Some? {
        JoinedLookup(tables, id, flow, bucket, m, port, name);
      }
    }
  }

  /** Flow and bucket together: on tables that hold the entries of both, wherever each plugin call put
      its own, egress performs the two lists as one action set in the pipeline's order, provided they
      share no type. */
  lemma BucketCorrect(target: Target, groups: GroupTables, tables: Tables, id: FlowId, flow: seq<Action>,
          bucket: seq<Action>, m: Metadata, port: bv32, h: Headers)
    requires Joined(groups, tables, id, flow, bucket, m, port) && Disjoint(flow, bucket)
    ensures Egress(target, groups, tables, m, port, h) == RunInPipelineOrder(target, flow + bucket, h)
  {
    JoinedSelects(groups, tables, id, flow, bucket, m, port);
    RewritePerforms(target, tables, flow + bucket, WithGroupBits(groups, m, port), port, h);
    EgressRewrites(target, groups, tables, m, WithGroupBits(groups, m, port), port, h);
  }

  /** Section 5.10 of OpenFlow 1.3.0 asks for the flow's set first and then the bucket's. Egress does that, to
      every packet of every target, exactly when the two lists are in order. */
  lemma BucketConforms(groups: GroupTables, tables: Tables, id: FlowId, flow: seq<Action>, bucket: seq<Action>,
          m: Metadata, port: bv32)
    requires Joined(groups, tables, id, flow, bucket, m, port) && Disjoint(flow, bucket)
    ensures (forall target: Target, h: Headers | Fits(target, h) ::
               Egress(target, groups, tables, m, port, h) == Sequential(target, flow, bucket, h))
            <==> InOrder(flow, bucket)
  {
    if InOrder(flow, bucket) {
      forall target: Target, h: Headers | Fits(target, h)
        ensures Egress(target, groups, tables, m, port, h) == Sequential(target, flow, bucket, h)
      {
        BucketCorrect(target, groups, tables, id, flow, bucket, m, port, h);
        InOrderSuffices(target, flow, bucket, h);
      }
    } else {
      BucketCorrect(ROOMY, groups, tables, id, flow, bucket, m, port, Telltale(flow));
      OutOfOrderTells(flow, bucket);
      assert Egress(ROOMY, groups, tables, m, port, Telltale(flow)) !=
             Sequential(ROOMY, flow, bucket, Telltale(flow));
    }
  }

  /** On a port that has no bucket of the group, egress performs the flow's own set. */
  lemma NoBucketCorrect(target: Target, groups: GroupTables, tables: Tables, id: FlowId, flow: seq<Action>,
          m: Metadata, port: bv32, h: Headers)
    requires Beside(tables, id, flow, [], m, port) && GroupPort(m.groupId, port) !in groups.egress
    ensures Egress(target, groups, tables, m, port, h) == RunInPipelineOrder(target, flow, h)
    ensures Egress(target, groups, tables, m, port, h) == RunInSpecOrder(target, flow, h) <==> !Clash(flow, h)
  {
    assert flow + [] == flow;
    forall name: TableName | name != TOutput
      ensures CheckBit(m.bmap, name.Type().Code()) <==> LastOf(flow, name.Type()).Some?
      ensures LastOf(flow, name.Type()).Some? ==>
                Lookup(Entries(tables, name), m.index, m.groupId, port) ==
                Counterpart(name, LastOf(flow, name.Type()).value)
    {
      CompiledType(flow, name.Type());
      if LastOf(flow, name.Type()).Some? {
        JoinedLookup(tables, id, flow, [], m, port, name);
      }
    }
    RewritePerforms(target, tables, flow, m, port, h);
    GroupMiss(groups, m, port);
    EgressRewrites(target, groups, tables, m, m, port, h);
    OrderRefinement(target, flow, h);
  }

  /** Where ingress sends a packet of a flow that names a group and has no output: a unicast group gives it its
      port, a multicast group gives it a multicast group and leaves its port, and an unknown group does
      nothing. */
  lemma IngressGroups(groups: GroupTables, tables: Tables, flow: seq<Action>, m: Metadata, q: Queueing)
    requires m.bmap == Compile(flow).sig
    requires LastOf(flow, OFPAT_GROUP).Some? && LastOf(flow, OFPAT_OUTPUT).None?
    ensures Ingress(groups, tables, m, q) ==
            if GroupId(m.groupId) !in groups.ingress then q
            else
              match groups.ingress[GroupId(m.groupId)]
              case UnicastTo(port) => Queueing(port, q.mcastGrp)
              case MulticastTo(mcindex) => Queueing(q.egressSpec, mcindex)
  {
    CompiledType(flow, OFPAT_GROUP);
    CompiledType(flow, OFPAT_OUTPUT);
  }

  /** End to end for an indirect group: a packet of a flow that sends to the group leaves by the port of the
      group's bucket, with the actions of flow and bucket performed. */
  lemma IndirectGroupCorrect(target: Target, groups: GroupTables, tables: Tables, id: FlowId, flow: seq<Action>,
          bucket: seq<Action>, m: Metadata, q: Queueing, port: bv32, h: Headers)
    requires Joined(groups, tables, id, flow, bucket, m, port) && Disjoint(flow, bucket)
    requires LastOf(flow, OFPAT_GROUP).Some? && LastOf(flow, OFPAT_OUTPUT).None?
    requires GroupId(m.groupId) in groups.ingress && groups.ingress[GroupId(m.groupId)] == UnicastTo(port)
    ensures Forward(target, groups, tables, m, q, h) ==
            (q.(egressSpec := port), RunInPipelineOrder(target, flow + bucket, h))
  {
    IngressGroups(groups, tables, flow, m, q);
    BucketCorrect(target, groups, tables, id, flow, bucket, m, port, h);
    ForwardParts(target, groups, tables, m, q, h, q.(egressSpec := port),
                 RunInPipelineOrder(target, flow + bucket, h));
  }

  /** And it is the packet of section 5.10, whatever it carries, exactly when the two lists are in order. */
  lemma IndirectGroupConforms(groups: GroupTables, tables: Tables, id: FlowId, flow: seq<Action>, bucket: seq<Action>,
          m: Metadata, q: Queueing, port: bv32)
    requires Joined(groups, tables, id, flow, bucket, m, port) && Disjoint(flow, bucket)
    requires LastOf(flow, OFPAT_GROUP).Some? && LastOf(flow, OFPAT_OUTPUT).None?
    requires GroupId(m.groupId) in groups.ingress && groups.ingress[GroupId(m.groupId)] == UnicastTo(port)
    ensures (forall target: Target, h: Headers | Fits(target, h) ::
               Forward(target, groups, tables, m, q, h) ==
               (q.(egressSpec := port), Sequential(target, flow, bucket, h)))
            <==> InOrder(flow, bucket)
  {
    if InOrder(flow, bucket) {
      forall target: Target, h: Headers | Fits(target, h)
        ensures Forward(target, groups, tables, m, q, h) ==
                (q.(egressSpec := port), Sequential(target, flow, bucket, h))
      {
        IndirectGroupCorrect(target, groups, tables, id, flow, bucket, m, q, port, h);
        InOrderSuffices(target, flow, bucket, h);
      }
    } else {
      var h := Telltale(flow);
      IndirectGroupCorrect(ROOMY, groups, tables, id, flow, bucket, m, q, port, h);
      OutOfOrderTells(flow, bucket);
      assert Forward(ROOMY, groups, tables, m, q, h) !=
             (q.(egressSpec := port), Sequential(ROOMY, flow, bucket, h));
    }
  }

  /** End to end for a group of type all: its packets carry the multicast group on, and on whatever port the
      traffic manager takes a copy, the actions of the flow and of that port's bucket are performed. */
  lemma MulticastGroupCorrect(target: Target, groups: GroupTables, tables: Tables, id: FlowId, flow: seq<Action>,
          bucket: seq<Action>, m: Metadata, q: Queueing, mcindex: bv32, port: bv32, h: Headers)
    requires Joined(groups, tables, id, flow, bucket, m, port) && Disjoint(flow, bucket)
    requires LastOf(flow, OFPAT_GROUP).Some? && LastOf(flow, OFPAT_OUTPUT).None?
    requires GroupId(m.groupId) in groups.ingress && groups.ingress[GroupId(m.groupId)] == MulticastTo(mcindex)
    ensures Ingress(groups, tables, m, q) == Queueing(q.egressSpec, mcindex)
    ensures Egress(target, groups, tables, m, port, h) == RunInPipelineOrder(target, flow + bucket, h)
    ensures port == q.egressSpec ==>
              Forward(target, groups, tables, m, q, h) ==
              (Queueing(q.egressSpec, mcindex), RunInPipelineOrder(target, flow + bucket, h))
  {
    IngressGroups(groups, tables, flow, m, q);
    BucketCorrect(target, groups, tables, id, flow, bucket, m, port, h);
    if port == q.egressSpec {
      ForwardParts(target, groups, tables, m, q, h, Queueing(q.egressSpec, mcindex),
                   RunInPipelineOrder(target, flow + bucket, h));
    }
  }

  /** And it is the packet of section 5.10 exactly when flow and bucket are in order. */
  lemma MulticastGroupConforms(groups: GroupTables, tables: Tables, id: FlowId, flow: seq<Action>,
          bucket: seq<Action>, m: Metadata, q: Queueing, mcindex: bv32)
    requires Joined(groups, tables, id, flow, bucket, m, q.egressSpec) && Disjoint(flow, bucket)
    requires LastOf(flow, OFPAT_GROUP).Some? && LastOf(flow, OFPAT_OUTPUT).None?
    requires GroupId(m.groupId) in groups.ingress && groups.ingress[GroupId(m.groupId)] == MulticastTo(mcindex)
    ensures (forall target: Target, h: Headers | Fits(target, h) ::
               Forward(target, groups, tables, m, q, h) ==
               (Queueing(q.egressSpec, mcindex), Sequential(target, flow, bucket, h)))
            <==> InOrder(flow, bucket)
  {
    if InOrder(flow, bucket) {
      forall target: Target, h: Headers | Fits(target, h)
        ensures Forward(target, groups, tables, m, q, h) ==
                (Queueing(q.egressSpec, mcindex), Sequential(target, flow, bucket, h))
      {
        MulticastGroupCorrect(target, groups, tables, id, flow, bucket, m, q, mcindex, q.egressSpec, h);
        InOrderSuffices(target, flow, bucket, h);
      }
    } else {
      var h := Telltale(flow);
      MulticastGroupCorrect(ROOMY, groups, tables, id, flow, bucket, m, q, mcindex, q.egressSpec, h);
      OutOfOrderTells(flow, bucket);
      assert Forward(ROOMY, groups, tables, m, q, h) !=
             (Queueing(q.egressSpec, mcindex), Sequential(ROOMY, flow, bucket, h));
    }
  }

  /** A packet whose group the tables do not know, neither at ingress nor on its port, is that of the flow. */
  lemma UnknownGroupDoesNothing(target: Target, groups: GroupTables, tables: Tables, id: FlowId, flow: seq<Action>,
          m: Metadata, q: Queueing, h: Headers)
    requires Beside(tables, id, flow, [], m, q.egressSpec)
    requires LastOf(flow, OFPAT_GROUP).Some? && LastOf(flow, OFPAT_OUTPUT).None?
    requires GroupId(m.groupId) !in groups.ingress && GroupPort(m.groupId, q.egressSpec) !in groups.egress
    ensures Forward(target, groups, tables, m, q, h) == (q, RunInPipelineOrder(target, flow, h))
  {
    IngressGroups(groups, tables, flow, m, q);
    NoBucketCorrect(target, groups, tables, id, flow, m, q.egressSpec, h);
    ForwardParts(target, groups, tables, m, q, h, q, RunInPipelineOrder(target, flow, h));
  }
}
