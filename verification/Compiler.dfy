/** What the generated plugin installs for a compiled flow, why flows that share
    the tables do not disturb each other, and the main theorem about one flow: the
    pipeline runs the action set the list stands for. */
module Compiler {
  import opened OpenFlow
  import opened Signature
  import opened Parse
  import opened Packets
  import opened Pipeline

  datatype FlowId = FlowId(bits: bv64)

  /** The 64-bit flow id as the 32-bit P4 metadata field holds it. */
  function Index(id: FlowId): bv32 {
    (id.bits & 0xffff_ffff) as bv32
  }

  /** The id of two 32-bit words. */
  function IdOf(high: bv32, low: bv32): FlowId {
    FlowId(((high as bv64) << 32) | (low as bv64))
  }

  /** Every id is that of two words, and its index is the low one. */
  lemma IndexIsLowWord(high: bv32, low: bv32)
    ensures Index(IdOf(high, low)) == low
  {
  }

  lemma IdHasWords(id: FlowId) returns (high: bv32, low: bv32)
    ensures id == IdOf(high, low)
  {
    high, low := (id.bits >> 32) as bv32, (id.bits & 0xffff_ffff) as bv32;
  }

  /** The key of a flow's pipeline entries: its index, with the other fields wildcard. */
  function FlowKey(id: FlowId): Key {
    Key(Some(Index(id)), None, None)
  }

  /** The argument a table holds for a type; Unset where it holds none. */
  function ArgumentOf(args: ArgTable, ty: ActionType): Arg {
    if ty !in args then Unset
    else
      match args[ty]
      case Value(arg) => arg
      case Fields(fields) => if OFPXMT_OFB_VLAN_VID in fields then fields[OFPXMT_OFB_VLAN_VID] else Unset
  }

  /** The action an entry of a table runs, with its data taken from the argument table. */
  function Bound(name: TableName, args: ArgTable): P4Action {
    match (name, ArgumentOf(args, name.Type()))
    case (TOutput, U32(port)) => OfpatOutput(port)
    case (TPopMpls, _) => OfpatPopMpls
    case (TPushMpls, _) => OfpatPushMpls
    case (TDecMplsTtl, _) => OfpatDecMplsTtl
    case (TSetMplsTtl, U8(ttl)) => OfpatSetMplsTtl(ttl)
    case (TPopVlan, _) => OfpatPopVlan
    case (TPushVlan, _) => OfpatPushVlan
    case (TSetField, U16(vid)) => OfpatSetVlanVid(vid)
    case (TDecNwTtlIpv4, _) => OfpatDecNwTtlIpv4
    case (TDecNwTtlIpv6, _) => OfpatDecNwTtlIpv6
    case (TSetNwTtlIpv4, U8(ttl)) => OfpatSetNwTtlIpv4(ttl)
    case (TSetNwTtlIpv6, U8(ttl)) => OfpatSetNwTtlIpv6(ttl)
    case _ => Nop
  }

  function Own(entries: seq<Entry>, key: Key): seq<Entry> {
    if entries == [] then []
    else if entries[0].key == key then [entries[0]] + Own(entries[1..], key)
    else Own(entries[1..], key)
  }

  function Others(entries: seq<Entry>, key: Key): seq<Entry> {
    if entries == [] then []
    else if entries[0].key == key then Others(entries[1..], key)
    else [entries[0]] + Others(entries[1..], key)
  }

  lemma {:induction false} OwnAndOthers(entries: seq<Entry>, e: Entry, key: Key)
    ensures e in Own(entries, key) <==> e in entries && e.key == key
    ensures e in Others(entries, key) <==> e in entries && e.key != key
  {
    if entries != [] {
      OwnAndOthers(entries[1..], e, key);
    }
  }

  // ----- the contract of ofpat_pipeline_add, ofpat_pipeline_mod and ofpat_pipeline_del -----

  /** Whatever a plugin call does, and wherever it inserts, it leaves the entries of other keys as they are. */
  ghost predicate TouchesOnly(before: Tables, after: Tables, key: Key) {
    forall name: TableName :: Others(Entries(after, name), key) == Others(Entries(before, name), key)
  }

  /** One entry per bit of the bitmap, with the argument from the table. Nothing is asked of the other tables. */
  ghost predicate Installed(tables: Tables, key: Key, sig: bv32, args: ArgTable) {
    forall name: TableName ::
      CheckBit(sig, name.Type().Code()) ==> Own(Entries(tables, name), key) == [Entry(key, Bound(name, args))]
  }

  ghost predicate Removed(tables: Tables, key: Key) {
    forall name: TableName :: Own(Entries(tables, name), key) == []
  }

  // ----- isolation -----

  lemma {:induction false} LookupSkips(entries: seq<Entry>, key: Key, index: bv32, groupId: bv32, port: bv32)
    requires !key.Matches(index, groupId, port)
    ensures Lookup(entries, index, groupId, port) == Lookup(Others(entries, key), index, groupId, port)
  {
    if entries != [] {
      LookupSkips(entries[1..], key, index, groupId, port);
      assert entries[0].key != key ==> Others(entries, key)[1..] == Others(entries[1..], key);
    }
  }

  lemma {:induction false} OwnAmongOthers(entries: seq<Entry>, key: Key, other: Key)
    requires key != other
    ensures Own(entries, key) == Own(Others(entries, other), key)
  {
    if entries != [] {
      OwnAmongOthers(entries[1..], key, other);
      assert entries[0].key != other ==> Others(entries, other)[1..] == Others(entries[1..], other);
    }
  }

  /** Flows share the tables without sharing entries: what a plugin call does for one flow changes
      no lookup, and no entry, of a flow with another index. */
  lemma Isolation(before: Tables, after: Tables, touched: FlowId, id: FlowId, name: TableName, groupId: bv32,
          port: bv32)
    requires TouchesOnly(before, after, FlowKey(touched))
    requires Index(touched) != Index(id)
    ensures Lookup(Entries(after, name), Index(id), groupId, port)
         == Lookup(Entries(before, name), Index(id), groupId, port)
    ensures Own(Entries(after, name), FlowKey(id)) == Own(Entries(before, name), FlowKey(id))
  {
    LookupSkips(Entries(after, name), FlowKey(touched), Index(id), groupId, port);
    LookupSkips(Entries(before, name), FlowKey(touched), Index(id), groupId, port);
    OwnAmongOthers(Entries(after, name), FlowKey(id), FlowKey(touched));
    OwnAmongOthers(Entries(before, name), FlowKey(id), FlowKey(touched));
  }

  ghost predicate SameLookups(before: Tables, after: Tables, id: FlowId) {
    forall name: TableName, groupId: bv32, port: bv32 ::
      Lookup(Entries(after, name), Index(id), groupId, port) == Lookup(Entries(before, name), Index(id), groupId, port)
  }

  /** No plugin call for one flow, on any tables, shows in the lookups of the other. */
  ghost predicate Isolated(touched: FlowId, id: FlowId) {
    forall before: Tables, after: Tables ::
      TouchesOnly(before, after, FlowKey(touched)) ==> SameLookups(before, after, id)
  }

  /** Two flows are isolated exactly when their ids differ in the low 32 bits; two distinct ids need
      not, and then installing one flow changes what packets of the other do. */
  lemma IsolationNeedsDistinctIndexes(touched: FlowId, id: FlowId)
    ensures Isolated(touched, id) <==> Index(touched) != Index(id)
  {
    if Index(touched) != Index(id) {
      forall before: Tables, after: Tables | TouchesOnly(before, after, FlowKey(touched))
        ensures SameLookups(before, after, id)
      {
        forall name: TableName, groupId: bv32, port: bv32 {
          Isolation(before, after, touched, id, name, groupId, port);
        }
      }
    } else {
      var e := Entry(FlowKey(touched), OfpatPopMpls);
      var before: Tables, after: Tables := map[], map[TPopMpls := [e]];
      assert Others([e], FlowKey(touched)) == Others([e][1..], FlowKey(touched)) == [];
      assert TouchesOnly(before, after, FlowKey(touched));
      assert Lookup(Entries(after, TPopMpls), Index(id), 0, 0) != Lookup(Entries(before, TPopMpls), Index(id), 0, 0);
      assert !SameLookups(before, after, id);
    }
  }

  /** In words: whatever the high ones are, the low ones must differ. */
  lemma IsolationInWords(high: bv32, low: bv32, high': bv32, low': bv32)
    ensures Isolated(IdOf(high, low), IdOf(high', low')) <==> low != low'
  {
    IndexIsLowWord(high, low);
    IndexIsLowWord(high', low');
    IsolationNeedsDistinctIndexes(IdOf(high, low), IdOf(high', low'));
  }

  lemma DistinctIdsMayShareIndex()
    ensures FlowId(1) != FlowId(0x1_0000_0001) && !Isolated(FlowId(0x1_0000_0001), FlowId(1))
  {
    IsolationNeedsDistinctIndexes(FlowId(0x1_0000_0001), FlowId(1));
  }

  // ----- one flow -----

  /** No entry of a group with the given id: entries are of single flows, or of other groups. */
  ghost predicate Quiet(tables: Tables, groupId: bv32) {
    forall name: TableName, e :: e in Entries(tables, name) ==> QuietKey(e.key, groupId)
  }

  predicate QuietKey(key: Key, groupId: bv32) {
    || (key.index.Some? && key == Key(key.index, None, None))
    || (key.groupId.Some? && key.groupId.value != groupId)
  }

  lemma {:induction false} LookupOwn(entries: seq<Entry>, id: FlowId, groupId: bv32, port: bv32)
    requires forall e :: e in entries ==> QuietKey(e.key, groupId)
    ensures var own := Own(entries, FlowKey(id));
            Lookup(entries, Index(id), groupId, port) == if own == [] then Nop else own[0].action
  {
    if entries != [] {
      LookupOwn(entries[1..], id, groupId, port);
    }
  }

  /** A packet marked for an installed flow meets, in every table its bitmap selects, that flow's own action. */
  lemma MarkedLookup(tables: Tables, id: FlowId, p: Parsed, name: TableName, groupId: bv32, port: bv32)
    requires Installed(tables, FlowKey(id), p.sig, p.args) && Quiet(tables, groupId)
    requires CheckBit(p.sig, name.Type().Code())
    ensures Lookup(Entries(tables, name), Index(id), groupId, port) == Bound(name, p.args)
  {
    LookupOwn(Entries(tables, name), id, groupId, port);
  }

  /** The compound action that performs an OpenFlow action in a table of its type. */
  function Counterpart(name: TableName, a: Action): P4Action
    requires a.Type() == name.Type()
  {
    match name
    case TOutput => OfpatOutput(a.port)
    case TPopMpls => OfpatPopMpls
    case TPushMpls => OfpatPushMpls
    case TDecMplsTtl => OfpatDecMplsTtl
    case TSetMplsTtl => OfpatSetMplsTtl(a.mplsTtl)
    case TPopVlan => OfpatPopVlan
    case TPushVlan => OfpatPushVlan
    case TSetField => OfpatSetVlanVid(a.vid)
    case TDecNwTtlIpv4 => OfpatDecNwTtlIpv4
    case TDecNwTtlIpv6 => OfpatDecNwTtlIpv6
    case TSetNwTtlIpv4 => OfpatSetNwTtlIpv4(a.nwTtl)
    case TSetNwTtlIpv6 => OfpatSetNwTtlIpv6(a.nwTtl)
  }

  lemma {:induction false} BoundIsCounterpart(actions: seq<Action>, name: TableName)
    requires LastOf(actions, name.Type()).Some?
    ensures Bound(name, Compile(actions).args) == Counterpart(name, LastOf(actions, name.Type()).value)
  {
    CompiledType(actions, name.Type());
    var a := LastOf(actions, name.Type()).value;
    if name.Type().Carries() {
      assert ArgumentOf(Compile(actions).args, name.Type()) == a.Argument();
    }
  }

  lemma CounterpartPerforms(target: Target, name: TableName, a: Action, h: Headers)
    requires a.Type() == name.Type()
    requires (name.TDecNwTtlIpv4? || name.TSetNwTtlIpv4?) ==> h.ipv4.Valid?
    requires (name.TDecNwTtlIpv6? || name.TSetNwTtlIpv6?) ==> h.ipv4.Invalid? && h.ipv6.Valid?
    ensures Effect(target, Counterpart(name, a), h) == Perform(target, a, h)
  {
  }

  /** The hypotheses under which a packet runs a flow: the flow is installed as compiled, the packet
      was marked by the flow's table entry, and no group claims it. */
  ghost predicate Marked(tables: Tables, id: FlowId, actions: seq<Action>, m: Metadata) {
    && Installed(tables, FlowKey(id), Compile(actions).sig, Compile(actions).args)
    && Quiet(tables, m.groupId)
    && m.index == Index(id) && m.bmap == Compile(actions).sig
  }

  /** The header tables do as the list asks when a packet's bitmap selects exactly the types of the list,
      and each table selected runs the action that performs the last of its type. */
  ghost predicate Selects(tables: Tables, m: Metadata, port: bv32, actions: seq<Action>) {
    forall name: TableName | name != TOutput ::
      var last := LastOf(actions, name.Type());
      && (CheckBit(m.bmap, name.Type().Code()) <==> last.Some?)
      && (last.Some? ==>
            Lookup(Entries(tables, name), m.index, m.groupId, port) == Counterpart(name, last.value))
  }

  /** Marked packets are such packets, on every port. */
  lemma MarkedSelects(tables: Tables, id: FlowId, actions: seq<Action>, m: Metadata, port: bv32)
    requires Marked(tables, id, actions, m)
    ensures Selects(tables, m, port, actions)
  {
    forall name: TableName | name != TOutput
      ensures CheckBit(m.bmap, name.Type().Code()) <==> LastOf(actions, name.Type()).Some?
      ensures LastOf(actions, name.Type()).Some? ==>
                Lookup(Entries(tables, name), m.index, m.groupId, port) ==
                Counterpart(name, LastOf(actions, name.Type()).value)
    {
      CompiledType(actions, name.Type());
      if LastOf(actions, name.Type()).Some? {
        MarkedLookup(tables, id, Compile(actions), name, m.groupId, port);
        BoundIsCounterpart(actions, name);
      }
    }
  }

  lemma StagePerforms(target: Target, tables: Tables, actions: seq<Action>, m: Metadata, name: TableName, port: bv32,
          h: Headers)
    requires Selects(tables, m, port, actions) && name != TOutput
    requires (name.TDecNwTtlIpv4? || name.TSetNwTtlIpv4?) ==> h.ipv4.Valid?
    requires (name.TDecNwTtlIpv6? || name.TSetNwTtlIpv6?) ==> h.ipv4.Invalid? && h.ipv6.Valid?
    ensures Stage(target, tables, name, m, port, h) == PerformLast(target, actions, name.Type(), h)
  {
    if LastOf(actions, name.Type()).Some? {
      CounterpartPerforms(target, name, LastOf(actions, name.Type()).value, h);
    }
  }

  lemma NotIp(target: Target, actions: seq<Action>, ty: ActionType, h: Headers)
    requires ty.OFPAT_DEC_NW_TTL? || ty.OFPAT_SET_NW_TTL?
    requires h.ipv4.Invalid? && h.ipv6.Invalid?
    ensures PerformLast(target, actions, ty, h) == h
  {
  }

  lemma NwStagePerforms(target: Target, tables: Tables, actions: seq<Action>, m: Metadata, ipv4: TableName,
          ipv6: TableName, port: bv32, h: Headers)
    requires Selects(tables, m, port, actions)
    requires (ipv4, ipv6) == (TDecNwTtlIpv4, TDecNwTtlIpv6) || (ipv4, ipv6) == (TSetNwTtlIpv4, TSetNwTtlIpv6)
    ensures NwStage(target, tables, ipv4, ipv6, m, port, h) == PerformLast(target, actions, ipv4.Type(), h)
  {
    if h.ipv4.Valid? {
      StagePerforms(target, tables, actions, m, ipv4, port, h);
    } else if h.ipv6.Valid? {
      StagePerforms(target, tables, actions, m, ipv6, port, h);
    } else {
      NotIp(target, actions, ipv4.Type(), h);
    }
  }

  lemma RewriteMplsPerforms(target: Target, tables: Tables, actions: seq<Action>, m: Metadata, port: bv32, h: Headers)
    requires Selects(tables, m, port, actions)
    ensures RewriteMpls(target, tables, m, port, h) == RunMplsActions(target, actions, h)
  {
    var h1 := PerformLast(target, actions, OFPAT_POP_MPLS, h);
    var h2 := PerformLast(target, actions, OFPAT_PUSH_MPLS, h1);
    var h3 := PerformLast(target, actions, OFPAT_DEC_MPLS_TTL, h2);
    StagePerforms(target, tables, actions, m, TPopMpls, port, h);
    StagePerforms(target, tables, actions, m, TPushMpls, port, h1);
    StagePerforms(target, tables, actions, m, TDecMplsTtl, port, h2);
    StagePerforms(target, tables, actions, m, TSetMplsTtl, port, h3);
  }

  lemma RewriteVlanPerforms(target: Target, tables: Tables, actions: seq<Action>, m: Metadata, port: bv32, h: Headers)
    requires Selects(tables, m, port, actions)
    ensures RewriteVlan(target, tables, m, port, h) == RunVlanActions(target, actions, h)
  {
    var h1 := PerformLast(target, actions, OFPAT_POP_VLAN, h);
    var h2 := PerformLast(target, actions, OFPAT_PUSH_VLAN, h1);
    StagePerforms(target, tables, actions, m, TPopVlan, port, h);
    StagePerforms(target, tables, actions, m, TPushVlan, port, h1);
    StagePerforms(target, tables, actions, m, TSetField, port, h2);
  }

  lemma L3Chain(target: Target, tables: Tables, actions: seq<Action>, m: Metadata, port: bv32, h: Headers)
    requires var h1 := PerformLast(target, actions, OFPAT_DEC_NW_TTL, h);
             && NwStage(target, tables, TDecNwTtlIpv4, TDecNwTtlIpv6, m, port, h) == h1
             && NwStage(target, tables, TSetNwTtlIpv4, TSetNwTtlIpv6, m, port, h1) ==
                PerformLast(target, actions, OFPAT_SET_NW_TTL, h1)
    ensures RewriteL3(target, tables, m, port, h) == RunIpActions(target, actions, h)
  {
  }

  lemma RewriteL3Performs(target: Target, tables: Tables, actions: seq<Action>, m: Metadata, port: bv32, h: Headers)
    requires Selects(tables, m, port, actions)
    ensures RewriteL3(target, tables, m, port, h) == RunIpActions(target, actions, h)
  {
    var h1 := PerformLast(target, actions, OFPAT_DEC_NW_TTL, h);
    NwStagePerforms(target, tables, actions, m, TDecNwTtlIpv4, TDecNwTtlIpv6, port, h);
    NwStagePerforms(target, tables, actions, m, TSetNwTtlIpv4, TSetNwTtlIpv6, port, h1);
    L3Chain(target, tables, actions, m, port, h);
  }

  /** The egress rewrite then performs the list's action set, last writer per type. */
  lemma RewritePerforms(target: Target, tables: Tables, actions: seq<Action>, m: Metadata, port: bv32, h: Headers)
    requires Selects(tables, m, port, actions)
    ensures Rewrite(target, tables, m, port, h) == RunInPipelineOrder(target, actions, h)
  {
    var h1 := RunMplsActions(target, actions, h);
    RewriteMplsPerforms(target, tables, actions, m, port, h);
    RewriteVlanPerforms(target, tables, actions, m, port, h1);
    RewriteL3Performs(target, tables, actions, m, port, RunVlanActions(target, actions, h1));
  }

  /** Where the action set sends a packet: to the port of its last output action, if any. */
  function OutputPort(actions: seq<Action>, port: bv32): bv32 {
    match LastOf(actions, OFPAT_OUTPUT)
    case None => port
    case Some(a) => a.port
  }

  lemma {:induction false} IngressOutputs(groups: GroupTables, tables: Tables, id: FlowId, actions: seq<Action>,
          m: Metadata, q: Queueing)
    requires Marked(tables, id, actions, m)
    requires LastOf(actions, OFPAT_GROUP).None?
    ensures Ingress(groups, tables, m, q) == q.(egressSpec := OutputPort(actions, q.egressSpec))
  {
    CompiledType(actions, OFPAT_GROUP);
    CompiledType(actions, OFPAT_OUTPUT);
    if LastOf(actions, OFPAT_OUTPUT).Some? {
      MarkedLookup(tables, id, Compile(actions), TOutput, m.groupId, q.egressSpec);
      BoundIsCounterpart(actions, TOutput);
    }
  }

  /** Compiler correctness: parsing an action list, installing the flow, marking a packet and
      running both control blocks performs the list's action set, last writer per type, in the
      order of the pipeline, and sends the packet to the set's output port. */
  lemma CompilerCorrect(target: Target, groups: GroupTables, tables: Tables, id: FlowId, actions: seq<Action>,
          m: Metadata, q: Queueing, h: Headers)
    requires Marked(tables, id, actions, m)
    requires LastOf(actions, OFPAT_GROUP).None?
    requires GroupPort(m.groupId, OutputPort(actions, q.egressSpec)) !in groups.egress
    ensures Forward(target, groups, tables, m, q, h) ==
            (q.(egressSpec := OutputPort(actions, q.egressSpec)), RunInPipelineOrder(target, actions, h))
  {
    var port := OutputPort(actions, q.egressSpec);
    IngressOutputs(groups, tables, id, actions, m, q);
    MarkedSelects(tables, id, actions, m, port);
    RewritePerforms(target, tables, actions, m, port, h);
    EgressRewrites(target, groups, tables, m, m, port, h);
    ForwardParts(target, groups, tables, m, q, h, q.(egressSpec := port), RunInPipelineOrder(target, actions, h));
  }

  /** And it performs the action set as section 5.10 of OpenFlow 1.3.0 orders it, exactly when the
      packet and the set do not clash; if the set has none of the actions that the pipeline ignores,
      then whatever those would do. */
  lemma CompilerConforms(target: Target, groups: GroupTables, tables: Tables, id: FlowId, actions: seq<Action>,
          m: Metadata, q: Queueing, h: Headers, other: (Action, Headers) -> Headers)
    requires Marked(tables, id, actions, m)
    requires LastOf(actions, OFPAT_GROUP).None?
    requires GroupPort(m.groupId, OutputPort(actions, q.egressSpec)) !in groups.egress
    ensures Forward(target, groups, tables, m, q, h) ==
            (q.(egressSpec := OutputPort(actions, q.egressSpec)), RunInSpecOrder(target, actions, h))
            <==> !Clash(actions, h)
    ensures Performed(actions) ==>
              (Forward(target, groups, tables, m, q, h) ==
               (q.(egressSpec := OutputPort(actions, q.egressSpec)), RunInFullSpecOrder(target, other, actions, h))
               <==> !Clash(actions, h))
  {
    CompilerCorrect(target, groups, tables, id, actions, m, q, h);
    OrderRefinement(target, actions, h);
    if Performed(actions) {
      FullSpecOrder(target, other, actions, h);
    }
  }
}
