/** The P4 machine that executes a signature (p4src/openflow.p4): match-action
    tables, the actions as in-place rewrites of a parsed packet, and the two
    control blocks. */
module Pipeline {
  import opened OpenFlow
  import opened Signature
  import opened Packets

  datatype TableName =
    | TOutput
    | TPopMpls
    | TPushMpls
    | TDecMplsTtl
    | TSetMplsTtl
    | TPopVlan
    | TPushVlan
    | TSetField
    | TDecNwTtlIpv4
    | TDecNwTtlIpv6
    | TSetNwTtlIpv4
    | TSetNwTtlIpv6
  {
    /** The action type whose signature bit guards the table. */
    function Type(): ActionType {
      match this
      case TOutput => OFPAT_OUTPUT
      case TPopMpls => OFPAT_POP_MPLS
      case TPushMpls => OFPAT_PUSH_MPLS
      case TDecMplsTtl => OFPAT_DEC_MPLS_TTL
      case TSetMplsTtl => OFPAT_SET_MPLS_TTL
      case TPopVlan => OFPAT_POP_VLAN
      case TPushVlan => OFPAT_PUSH_VLAN
      case TSetField => OFPAT_SET_FIELD
      case TDecNwTtlIpv4 => OFPAT_DEC_NW_TTL
      case TDecNwTtlIpv6 => OFPAT_DEC_NW_TTL
      case TSetNwTtlIpv4 => OFPAT_SET_NW_TTL
      case TSetNwTtlIpv6 => OFPAT_SET_NW_TTL
    }
  }

  /** The compound actions with the data a table entry binds to them. */
  datatype P4Action =
    | Nop
    | OfpatOutput(egressPort: bv32)
    | OfpatPopMpls
    | OfpatPushMpls
    | OfpatDecMplsTtl
    | OfpatSetMplsTtl(ttl: bv8)
    | OfpatPopVlan
    | OfpatPushVlan
    | OfpatSetVlanVid(vid: bv16)
    | OfpatDecNwTtlIpv4
    | OfpatDecNwTtlIpv6
    | OfpatSetNwTtlIpv4(ttl: bv8)
    | OfpatSetNwTtlIpv6(ttl: bv8)

  /** A ternary key; None is a wildcard. */
  datatype Key = Key(index: Option<bv32>, groupId: Option<bv32>, port: Option<bv32>)
  {
    predicate Matches(index: bv32, groupId: bv32, port: bv32) {
      && (this.index.Some? ==> this.index.value == index)
      && (this.groupId.Some? ==> this.groupId.value == groupId)
      && (this.port.Some? ==> this.port.value == port)
    }
  }

  datatype Entry = Entry(key: Key, action: P4Action)

  type Tables = map<TableName, seq<Entry>>

  /** Entries in the order the target tries them. */
  function Entries(tables: Tables, name: TableName): seq<Entry> {
    if name in tables then tables[name] else []
  }

  /** The action of the first matching entry; a miss runs the default nop. */
  function Lookup(entries: seq<Entry>, index: bv32, groupId: bv32, port: bv32): P4Action {
    if entries == [] then Nop
    else if entries[0].key.Matches(index, groupId, port) then entries[0].action
    else Lookup(entries[1..], index, groupId, port)
  }

  /** A key asks for equality in each field it gives, and for nothing in the others. */
  lemma KeyMatches(i: bv32, g: bv32, p: bv32, index: bv32, groupId: bv32, port: bv32)
    ensures Key(None, None, None).Matches(index, groupId, port)
    ensures Key(Some(i), None, None).Matches(index, groupId, port) <==> index == i
    ensures Key(None, Some(g), None).Matches(index, groupId, port) <==> groupId == g
    ensures Key(None, None, Some(p)).Matches(index, groupId, port) <==> port == p
    ensures Key(None, Some(g), Some(p)).Matches(index, groupId, port) <==> groupId == g && port == p
    ensures Key(Some(i), Some(g), Some(p)).Matches(index, groupId, port) <==> index == i && groupId == g && port == p
  {
  }

  /** The first entry that matches decides. */
  lemma {:induction false} LookupFinds(entries: seq<Entry>, i: nat, index: bv32, groupId: bv32, port: bv32)
    requires i < |entries| && entries[i].key.Matches(index, groupId, port)
    requires forall j :: 0 <= j < i ==> !entries[j].key.Matches(index, groupId, port)
    ensures Lookup(entries, index, groupId, port) == entries[i].action
  {
    if i > 0 {
      assert !entries[0].key.Matches(index, groupId, port);
      LookupFinds(entries[1..], i - 1, index, groupId, port);
    }
  }

  /** Where none matches, the default does nothing. */
  lemma {:induction false} LookupMisses(entries: seq<Entry>, index: bv32, groupId: bv32, port: bv32)
    requires forall e :: e in entries ==> !e.key.Matches(index, groupId, port)
    ensures Lookup(entries, index, groupId, port) == Nop
  {
    if entries != [] {
      LookupMisses(entries[1..], index, groupId, port);
    }
  }

  datatype Metadata = Metadata(index: bv32, bmap: bv32, groupId: bv32, ofvalid: bool)

  datatype GroupIngress = UnicastTo(ifindex: bv32) | MulticastTo(mcindex: bv32)

  /** Tables that only group_create fills, keyed exactly. */
  datatype GroupTables = GroupTables(ingress: map<GroupId, GroupIngress>, egress: map<GroupPort, bv32>)
  datatype GroupId = GroupId(id: bv32)
  datatype GroupPort = GroupPort(id: bv32, port: bv32)

  /** What a compound action does to the headers. */
  function Effect(target: Target, a: P4Action, h: Headers): Headers {
    match a
    case Nop => h
    case OfpatOutput(_) => h
    case OfpatPopMpls => Perform(target, PopMpls, h)
    case OfpatPushMpls => Perform(target, PushMpls, h)
    case OfpatDecMplsTtl => Perform(target, DecMplsTtl, h)
    case OfpatSetMplsTtl(ttl) => Perform(target, SetMplsTtl(ttl), h)
    case OfpatPopVlan => Perform(target, PopVlan, h)
    case OfpatPushVlan => Perform(target, PushVlan, h)
    case OfpatSetVlanVid(vid) => Perform(target, SetVlanVid(vid), h)
    case OfpatDecNwTtlIpv4 => if h.ipv4.Valid? then h.(ipv4 := Decremented(h.ipv4)) else h
    case OfpatDecNwTtlIpv6 => if h.ipv6.Valid? then h.(ipv6 := Decremented(h.ipv6)) else h
    case OfpatSetNwTtlIpv4(ttl) => if h.ipv4.Valid? then h.(ipv4 := Valid(ttl)) else h
    case OfpatSetNwTtlIpv6(ttl) => if h.ipv6.Valid? then h.(ipv6 := Valid(ttl)) else h
  }

  /** Apply a table when its type's bit is in the bitmap. */
  function Stage(target: Target, tables: Tables, name: TableName, m: Metadata, port: bv32, h: Headers): Headers {
    if CheckBit(m.bmap, name.Type().Code())
    then Effect(target, Lookup(Entries(tables, name), m.index, m.groupId, port), h)
    else h
  }

  /** When their type's bit is in the bitmap, apply the IPv4 table to an IPv4 packet, else the IPv6
      table to an IPv6 packet. */
  function NwStage(target: Target, tables: Tables, ipv4: TableName, ipv6: TableName, m: Metadata, port: bv32,
          h: Headers): Headers {
    if !CheckBit(m.bmap, ipv4.Type().Code()) then h
    else if h.ipv4.Valid? then Effect(target, Lookup(Entries(tables, ipv4), m.index, m.groupId, port), h)
    else if h.ipv6.Valid? then Effect(target, Lookup(Entries(tables, ipv6), m.index, m.groupId, port), h)
    else h
  }

  function RewriteMpls(target: Target, tables: Tables, m: Metadata, port: bv32, h: Headers): Headers {
    var h := Stage(target, tables, TPopMpls, m, port, h);
    var h := Stage(target, tables, TPushMpls, m, port, h);
    var h := Stage(target, tables, TDecMplsTtl, m, port, h);
    Stage(target, tables, TSetMplsTtl, m, port, h)
  }

  function RewriteVlan(target: Target, tables: Tables, m: Metadata, port: bv32, h: Headers): Headers {
    var h := Stage(target, tables, TPopVlan, m, port, h);
    var h := Stage(target, tables, TPushVlan, m, port, h);
    Stage(target, tables, TSetField, m, port, h)
  }

  function RewriteL3(target: Target, tables: Tables, m: Metadata, port: bv32, h: Headers): Headers {
    var h := NwStage(target, tables, TDecNwTtlIpv4, TDecNwTtlIpv6, m, port, h);
    NwStage(target, tables, TSetNwTtlIpv4, TSetNwTtlIpv6, m, port, h)
  }

  /** The egress control block past its group table. */
  function Rewrite(target: Target, tables: Tables, m: Metadata, port: bv32, h: Headers): Headers {
    var h := RewriteMpls(target, tables, m, port, h);
    var h := RewriteVlan(target, tables, m, port, h);
    RewriteL3(target, tables, m, port, h)
  }

  /** The literal a control block tests for an action type. */
  predicate IsMaskOf(mask: bv32, ty: ActionType) {
    mask as bv64 == (1 as bv64) << ty.Code()
  }

  /** The metadata after the group-egress table: a hit adds bits to the bitmap, a miss does nothing. */
  function WithGroupBits(groups: GroupTables, m: Metadata, port: bv32): Metadata {
    var key := GroupPort(m.groupId, port);
    if key in groups.egress then m.(bmap := m.bmap | groups.egress[key]) else m
  }

  function Egress(target: Target, groups: GroupTables, tables: Tables, m: Metadata, port: bv32, h: Headers): Headers {
    Rewrite(target, tables, WithGroupBits(groups, m, port), port, h)
  }

  datatype Queueing = Queueing(egressSpec: bv32, mcastGrp: bv32)

  function IngressGroup(groups: GroupTables, m: Metadata, q: Queueing): Queueing {
    if !CheckBit(m.bmap, OFPAT_GROUP.Code()) || GroupId(m.groupId) !in groups.ingress then q
    else
      match groups.ingress[GroupId(m.groupId)]
      case UnicastTo(i) => q.(egressSpec := i)
      case MulticastTo(i) => q.(mcastGrp := i)
  }

  function IngressOutput(tables: Tables, m: Metadata, q: Queueing): Queueing {
    if !CheckBit(m.bmap, OFPAT_OUTPUT.Code()) then q
    else
      match Lookup(Entries(tables, TOutput), m.index, m.groupId, q.egressSpec)
      case OfpatOutput(p) => q.(egressSpec := p)
      case _ => q
  }

  /** Where the ingress control block sends the packet: group first, then output. */
  function Ingress(groups: GroupTables, tables: Tables, m: Metadata, q: Queueing): Queueing {
    IngressOutput(tables, m, IngressGroup(groups, m, q))
  }

  /** A packet that hit a flow entry: marked, queued by ingress, and rewritten by egress on the
      port the traffic manager took it to. */
  function Forward(target: Target, groups: GroupTables, tables: Tables, m: Metadata, q: Queueing,
          h: Headers): (Queueing, Headers)
  {
    var q := Ingress(groups, tables, m, q);
    (q, Egress(target, groups, tables, m, q.egressSpec, h))
  }

  lemma ForwardParts(target: Target, groups: GroupTables, tables: Tables, m: Metadata, q: Queueing, h: Headers,
          q': Queueing, h': Headers)
    requires q' == Ingress(groups, tables, m, q)
    requires h' == Egress(target, groups, tables, m, q'.egressSpec, h)
    ensures Forward(target, groups, tables, m, q, h) == (q', h')
  {
  }

  /** A parsed packet with its metadata, rewritten in place by the actions. */
  class Packet {
    const target: Target

    var etherType: bv16
    var mpls: seq<Mpls>
    var vlan: seq<Vlan>
    var ipv4: Ip
    var ipv6: Ip

    var index: bv32
    var bmap: bv32
    var groupId: bv32
    var ofvalid: bool

    var egressSpec: bv32  // ingress_egress_port
    var mcastGrp: bv32
    var egressPort: bv32  // egress_egress_port, set by the traffic manager

    ghost function Hdr(): Headers
      reads this`etherType, this`mpls, this`vlan, this`ipv4, this`ipv6
    {
      Headers(etherType, mpls, vlan, ipv4, ipv6)
    }

    ghost function Meta(): Metadata
      reads this`index, this`bmap, this`groupId, this`ofvalid
    {
      Metadata(index, bmap, groupId, ofvalid)
    }

    constructor (target: Target, h: Headers, port: bv32)
      ensures this.target == target && Hdr() == h && Meta() == Metadata(0, 0, 0, false)
      ensures egressSpec == port && mcastGrp == 0 && egressPort == 0
    {
      this.target := target;
      etherType, mpls, vlan, ipv4, ipv6 := h.etherType, h.mpls, h.vlan, h.ipv4, h.ipv6;
      index, bmap, groupId, ofvalid := 0, 0, 0, false;
      egressSpec, mcastGrp, egressPort := port, 0, 0;
    }

    method OpenflowApply(bmap: bv32, index: bv32, groupId: bv32)
      modifies this`index, this`bmap, this`groupId, this`ofvalid
      ensures Meta() == Metadata(index, bmap, groupId, true)
    {
      this.bmap := bmap;
      this.index := index;
      this.groupId := groupId;
      ofvalid := true;
    }

    method OfpatPopMplsAction()
      modifies this`mpls
      ensures Hdr() == Perform(target, PopMpls, old(Hdr()))
    {
      mpls := RemoveHeader(mpls);
    }

    method OfpatPushMplsAction()
      modifies this`etherType, this`mpls
      ensures Hdr() == Perform(target, PushMpls, old(Hdr()))
    {
      etherType := 0x8847;
      mpls := AddHeader(mpls, target.mplsDepth, ZERO_MPLS);
    }

    method OfpatDecMplsTtlAction()
      modifies this`mpls
      ensures Hdr() == Perform(target, DecMplsTtl, old(Hdr()))
    {
      if mpls != [] {
        mpls := mpls[0 := mpls[0].(ttl := mpls[0].ttl - 1)];
      }
    }

    method OfpatSetMplsTtlAction(ttl: bv8)
      modifies this`mpls
      ensures Hdr() == Perform(target, SetMplsTtl(ttl), old(Hdr()))
    {
      if mpls != [] {
        mpls := mpls[0 := mpls[0].(ttl := ttl)];
      }
    }

    method OfpatPopVlanAction()
      modifies this`etherType, this`vlan
      ensures Hdr() == Perform(target, PopVlan, old(Hdr()))
    {
      if vlan != [] {
        etherType := vlan[0].etherType;
        vlan := RemoveHeader(vlan);
      }
    }

    method OfpatPushVlanAction()
      modifies this`etherType, this`vlan
      ensures Hdr() == Perform(target, PushVlan, old(Hdr()))
    {
      etherType := 0x8100;
      vlan := AddHeader(vlan, target.vlanDepth, ZERO_VLAN);
      if vlan != [] {
        vlan := vlan[0 := vlan[0].(etherType := 0x0800)];
      }
    }

    method OfpatSetVlanVidAction(vid: bv16)
      modifies this`vlan
      ensures Hdr() == Perform(target, SetVlanVid(vid), old(Hdr()))
    {
      if vlan != [] {
        vlan := vlan[0 := vlan[0].(vid := (vid & 0xfff) as bv12)];
      }
    }

    /** Runs the action a header table selected. */
    method Run(a: P4Action)
      modifies this`etherType, this`mpls, this`vlan, this`ipv4, this`ipv6
      ensures Hdr() == Effect(target, a, old(Hdr()))
    {
      match a
      case Nop =>
      case OfpatOutput(_) =>  // not an action of the header tables
      case OfpatPopMpls => OfpatPopMplsAction();
      case OfpatPushMpls => OfpatPushMplsAction();
      case OfpatDecMplsTtl => OfpatDecMplsTtlAction();
      case OfpatSetMplsTtl(ttl) => OfpatSetMplsTtlAction(ttl);
      case OfpatPopVlan => OfpatPopVlanAction();
      case OfpatPushVlan => OfpatPushVlanAction();
      case OfpatSetVlanVid(vid) => OfpatSetVlanVidAction(vid);
      case OfpatDecNwTtlIpv4 => if ipv4.Valid? { ipv4 := Decremented(ipv4); }
      case OfpatDecNwTtlIpv6 => if ipv6.Valid? { ipv6 := Decremented(ipv6); }
      case OfpatSetNwTtlIpv4(ttl) => if ipv4.Valid? { ipv4 := Valid(ttl); }
      case OfpatSetNwTtlIpv6(ttl) => if ipv6.Valid? { ipv6 := Valid(ttl); }
    }

    /** Applies a header table to a packet whose bitmap has the bit of a mask. */
    method ApplyIf(mask: bv32, tables: Tables, name: TableName)
      requires IsMaskOf(mask, name.Type())
      modifies this`etherType, this`mpls, this`vlan, this`ipv4, this`ipv6
      ensures Hdr() == Stage(target, tables, name, Meta(), egressPort, old(Hdr()))
    {
      GuardIsBit(bmap, mask, name.Type().Code());
      if Guard(bmap, mask) {
        Run(Lookup(Entries(tables, name), index, groupId, egressPort));
      }
    }

    /** The same for a pair of tables, one for IPv4 packets and one for IPv6. */
    method ApplyNwIf(mask: bv32, tables: Tables, forIpv4: TableName, forIpv6: TableName)
      requires forIpv4.Type() == forIpv6.Type() && IsMaskOf(mask, forIpv4.Type())
      modifies this`etherType, this`mpls, this`vlan, this`ipv4, this`ipv6
      ensures Hdr() == NwStage(target, tables, forIpv4, forIpv6, Meta(), egressPort, old(Hdr()))
    {
      GuardIsBit(bmap, mask, forIpv4.Type().Code());
      if Guard(bmap, mask) {
        ApplyNw(tables, forIpv4, forIpv6);
      }
    }

    /** The nested tests for the headers. */
    method ApplyNw(tables: Tables, forIpv4: TableName, forIpv6: TableName)
      modifies this`etherType, this`mpls, this`vlan, this`ipv4, this`ipv6
      ensures var name := if old(ipv4).Valid? then forIpv4 else forIpv6;
              Hdr() ==
              if old(ipv4).Valid? || old(ipv6).Valid?
              then Effect(target, Lookup(Entries(tables, name), index, groupId, egressPort), old(Hdr()))
              else old(Hdr())
    {
      if ipv4.Valid? {
        Run(Lookup(Entries(tables, forIpv4), index, groupId, egressPort));
      } else {
        if ipv6.Valid? {
          Run(Lookup(Entries(tables, forIpv6), index, groupId, egressPort));
        }
      }
    }

    method ApplyGroupIngress(groups: GroupTables)
      modifies this`egressSpec, this`mcastGrp
      ensures Queueing(egressSpec, mcastGrp) ==
              IngressGroup(groups, Meta(), Queueing(old(egressSpec), old(mcastGrp)))
    {
      GuardIsBit(bmap, 0x400000, OFPAT_GROUP.Code());
      if Guard(bmap, 0x400000) {
        if GroupId(groupId) in groups.ingress {
          match groups.ingress[GroupId(groupId)]
          case UnicastTo(i) => egressSpec := i;
          case MulticastTo(i) => mcastGrp := i;
        }
      }
    }

    method ApplyOutput(tables: Tables)
      modifies this`egressSpec
      ensures Queueing(egressSpec, mcastGrp) == IngressOutput(tables, Meta(), Queueing(old(egressSpec), mcastGrp))
    {
      GuardIsBit(bmap, 0x1, OFPAT_OUTPUT.Code());
      if Guard(bmap, 0x1) {
        match Lookup(Entries(tables, TOutput), index, groupId, egressSpec)
        case OfpatOutput(p) => egressSpec := p;
        case _ =>
      }
    }

    method ProcessOfpatIngress(groups: GroupTables, tables: Tables)
      modifies this`egressSpec, this`mcastGrp
      ensures Queueing(egressSpec, mcastGrp) ==
              Ingress(groups, tables, Meta(), Queueing(old(egressSpec), old(mcastGrp)))
    {
      ApplyGroupIngress(groups);
      ApplyOutput(tables);
    }

    method ProcessMpls(tables: Tables)
      modifies this`etherType, this`mpls, this`vlan, this`ipv4, this`ipv6
      ensures Hdr() == RewriteMpls(target, tables, Meta(), egressPort, old(Hdr()))
    {
      ApplyIf(0x100000, tables, TPopMpls);
      ApplyIf(0x80000, tables, TPushMpls);
      ApplyIf(0x10000, tables, TDecMplsTtl);
      ApplyIf(0x8000, tables, TSetMplsTtl);
    }

    method ProcessVlan(tables: Tables)
      modifies this`etherType, this`mpls, this`vlan, this`ipv4, this`ipv6
      ensures Hdr() == RewriteVlan(target, tables, Meta(), egressPort, old(Hdr()))
    {
      ApplyIf(0x40000, tables, TPopVlan);
      ApplyIf(0x20000, tables, TPushVlan);
      ApplyIf(0x2000000, tables, TSetField);
    }

    method ProcessL3(tables: Tables)
      modifies this`etherType, this`mpls, this`vlan, this`ipv4, this`ipv6
      ensures Hdr() == RewriteL3(target, tables, Meta(), egressPort, old(Hdr()))
    {
      ApplyNwIf(0x1000000, tables, TDecNwTtlIpv4, TDecNwTtlIpv6);
      ApplyNwIf(0x800000, tables, TSetNwTtlIpv4, TSetNwTtlIpv6);
    }

    method ApplyGroupEgress(groups: GroupTables)
      modifies this`bmap
      ensures Meta() == WithGroupBits(groups, old(Meta()), egressPort)
    {
      if GroupPort(groupId, egressPort) in groups.egress {
        bmap := bmap | groups.egress[GroupPort(groupId, egressPort)];
      }
    }

    method ProcessOfpatEgress(groups: GroupTables, tables: Tables)
      modifies this`bmap, this`etherType, this`mpls, this`vlan, this`ipv4, this`ipv6
      ensures Hdr() == Egress(target, groups, tables, old(Meta()), egressPort, old(Hdr()))
      ensures Meta() == WithGroupBits(groups, old(Meta()), egressPort)
    {
      ApplyGroupEgress(groups);
      ProcessMpls(tables);
      ProcessVlan(tables);
      ProcessL3(tables);
    }

    /** A hit in a flow table, the ingress block, and the traffic manager taking the packet to its port. */
    method MarkAndQueue(groups: GroupTables, tables: Tables, bmap: bv32, index: bv32, groupId: bv32)
      modifies this`index, this`bmap, this`groupId, this`ofvalid, this`egressSpec, this`mcastGrp, this`egressPort
      ensures Meta() == Metadata(index, bmap, groupId, true) && egressPort == egressSpec
      ensures Queueing(egressSpec, mcastGrp) ==
              Ingress(groups, tables, Metadata(index, bmap, groupId, true), Queueing(old(egressSpec), old(mcastGrp)))
    {
      OpenflowApply(bmap, index, groupId);
      ProcessOfpatIngress(groups, tables);
      egressPort := egressSpec;
    }

    /** A packet that hits a flow entry, from its mark to its last rewrite. */
    method ForwardMarked(groups: GroupTables, tables: Tables, bmap: bv32, index: bv32, groupId: bv32)
      modifies this
      ensures (Queueing(egressSpec, mcastGrp), Hdr()) ==
              Forward(target, groups, tables, Metadata(index, bmap, groupId, true),
                      Queueing(old(egressSpec), old(mcastGrp)), old(Hdr()))
      ensures egressPort == egressSpec
    {
      ghost var m := Metadata(index, bmap, groupId, true);
      ghost var q := Queueing(egressSpec, mcastGrp);
      ghost var h := Hdr();
      MarkAndQueue(groups, tables, bmap, index, groupId);
      assert Hdr() == h;
      ProcessOfpatEgress(groups, tables);
      ForwardParts(target, groups, tables, m, q, h, Queueing(egressSpec, mcastGrp), Hdr());
    }
  }

  // ----- group buckets -----

  /** A bitmap that gains bits loses none. */
  lemma OrBits(b: bv32, g: bv32, bit: bv16)
    requires bit < 32
    ensures CheckBit(b | g, bit) <==> CheckBit(b, bit) || CheckBit(g, bit)
  {
    MaskedOr(b, g, bit);
    OrIsZero(Masked(b, bit), Masked(g, bit));
  }

  lemma MaskedOr(b: bv32, g: bv32, bit: bv16)
    requires bit < 32
    ensures Masked(b | g, bit) == Masked(b, bit) | Masked(g, bit)
  {
  }

  /** The bits of the merged bitmap are those of both. */
  ghost predicate HasBitsOf(merged: bv32, b: bv32, g: bv32) {
    forall bit: bv16 | bit < 32 :: CheckBit(merged, bit) <==> CheckBit(b, bit) || CheckBit(g, bit)
  }

  lemma OrHasBits(b: bv32, g: bv32)
    ensures HasBitsOf(b | g, b, g)
  {
    forall bit: bv16 | bit < 32
      ensures CheckBit(b | g, bit) <==> CheckBit(b, bit) || CheckBit(g, bit)
    {
      OrBits(b, g, bit);
    }
  }

  /** The bits the egress control block tests. */
  ghost predicate SameEgressBits(b: bv32, c: bv32) {
    forall name: TableName | name != TOutput :: CheckBit(b, name.Type().Code()) <==> CheckBit(c, name.Type().Code())
  }

  lemma StageReadsItsBit(target: Target, tables: Tables, name: TableName, m: Metadata, bmap: bv32, port: bv32,
          h: Headers)
    requires name != TOutput && SameEgressBits(m.bmap, bmap)
    ensures Stage(target, tables, name, m, port, h) == Stage(target, tables, name, m.(bmap := bmap), port, h)
  {
  }

  lemma NwStageReadsItsBit(target: Target, tables: Tables, ipv4: TableName, ipv6: TableName, m: Metadata, bmap: bv32,
          port: bv32, h: Headers)
    requires ipv4 != TOutput && SameEgressBits(m.bmap, bmap)
    ensures NwStage(target, tables, ipv4, ipv6, m, port, h) ==
            NwStage(target, tables, ipv4, ipv6, m.(bmap := bmap), port, h)
  {
  }

  lemma MplsReadsTestedBits(target: Target, tables: Tables, m: Metadata, bmap: bv32, port: bv32, h: Headers)
    requires SameEgressBits(m.bmap, bmap)
    ensures RewriteMpls(target, tables, m, port, h) == RewriteMpls(target, tables, m.(bmap := bmap), port, h)
  {
    var h1 := Stage(target, tables, TPopMpls, m, port, h);
    var h2 := Stage(target, tables, TPushMpls, m, port, h1);
    var h3 := Stage(target, tables, TDecMplsTtl, m, port, h2);
    StageReadsItsBit(target, tables, TPopMpls, m, bmap, port, h);
    StageReadsItsBit(target, tables, TPushMpls, m, bmap, port, h1);
    StageReadsItsBit(target, tables, TDecMplsTtl, m, bmap, port, h2);
    StageReadsItsBit(target, tables, TSetMplsTtl, m, bmap, port, h3);
  }

  lemma VlanReadsTestedBits(target: Target, tables: Tables, m: Metadata, bmap: bv32, port: bv32, h: Headers)
    requires SameEgressBits(m.bmap, bmap)
    ensures RewriteVlan(target, tables, m, port, h) == RewriteVlan(target, tables, m.(bmap := bmap), port, h)
  {
    var h1 := Stage(target, tables, TPopVlan, m, port, h);
    var h2 := Stage(target, tables, TPushVlan, m, port, h1);
    StageReadsItsBit(target, tables, TPopVlan, m, bmap, port, h);
    StageReadsItsBit(target, tables, TPushVlan, m, bmap, port, h1);
    StageReadsItsBit(target, tables, TSetField, m, bmap, port, h2);
  }

  lemma L3ReadsTestedBits(target: Target, tables: Tables, m: Metadata, bmap: bv32, port: bv32, h: Headers)
    requires SameEgressBits(m.bmap, bmap)
    ensures RewriteL3(target, tables, m, port, h) == RewriteL3(target, tables, m.(bmap := bmap), port, h)
  {
    var h1 := NwStage(target, tables, TDecNwTtlIpv4, TDecNwTtlIpv6, m, port, h);
    NwStageReadsItsBit(target, tables, TDecNwTtlIpv4, TDecNwTtlIpv6, m, bmap, port, h);
    NwStageReadsItsBit(target, tables, TSetNwTtlIpv4, TSetNwTtlIpv6, m, bmap, port, h1);
  }

  /** The egress rewrite depends on no bit but those its control block tests. */
  lemma RewriteReadsTestedBits(target: Target, tables: Tables, m: Metadata, bmap: bv32, port: bv32, h: Headers)
    requires SameEgressBits(m.bmap, bmap)
    ensures Rewrite(target, tables, m, port, h) == Rewrite(target, tables, m.(bmap := bmap), port, h)
  {
    var h1 := RewriteMpls(target, tables, m, port, h);
    MplsReadsTestedBits(target, tables, m, bmap, port, h);
    VlanReadsTestedBits(target, tables, m, bmap, port, h1);
    L3ReadsTestedBits(target, tables, m, bmap, port, RewriteVlan(target, tables, m, port, h1));
  }

  lemma EgressRewrites(target: Target, groups: GroupTables, tables: Tables, m: Metadata, merged: Metadata, port: bv32,
          h: Headers)
    requires WithGroupBits(groups, m, port) == merged
    ensures Egress(target, groups, tables, m, port, h) == Rewrite(target, tables, merged, port, h)
  {
  }

  lemma GroupMiss(groups: GroupTables, m: Metadata, port: bv32)
    requires GroupPort(m.groupId, port) !in groups.egress
    ensures WithGroupBits(groups, m, port) == m
  {
  }

  lemma GroupHit(groups: GroupTables, m: Metadata, port: bv32)
    requires GroupPort(m.groupId, port) in groups.egress
    ensures WithGroupBits(groups, m, port).bmap == m.bmap | groups.egress[GroupPort(m.groupId, port)]
    ensures WithGroupBits(groups, m, port) == m.(bmap := WithGroupBits(groups, m, port).bmap)
  {
  }

  lemma GroupBits(groups: GroupTables, m: Metadata, port: bv32)
    requires GroupPort(m.groupId, port) in groups.egress
    ensures HasBitsOf(WithGroupBits(groups, m, port).bmap, m.bmap, groups.egress[GroupPort(m.groupId, port)])
  {
    GroupHit(groups, m, port);
    OrHasBits(m.bmap, groups.egress[GroupPort(m.groupId, port)]);
  }

  /** A group bucket merges into a flow: a hit rewrites the packet as a miss does on the metadata with the
      bits of both, where no bit is lost. */
  lemma GroupMerge(target: Target, groups: GroupTables, tables: Tables, m: Metadata, port: bv32, h: Headers)
    requires GroupPort(m.groupId, port) in groups.egress
    ensures var merged := WithGroupBits(groups, m, port);
            && Egress(target, groups, tables, m, port, h) ==
               Egress(target, groups.(egress := map[]), tables, merged, port, h)
            && merged == m.(bmap := merged.bmap)
            && HasBitsOf(merged.bmap, m.bmap, groups.egress[GroupPort(m.groupId, port)])
  {
    var merged := WithGroupBits(groups, m, port);
    GroupHit(groups, m, port);
    GroupMiss(groups.(egress := map[]), merged, port);
    EgressRewrites(target, groups, tables, m, merged, port, h);
    EgressRewrites(target, groups.(egress := map[]), tables, merged, merged, port, h);
    GroupBits(groups, m, port);
  }

  /** Bits that no guard of the egress control block tests. */
  ghost predicate Late(bits: bv32) {
    forall name: TableName | name != TOutput :: !CheckBit(bits, name.Type().Code())
  }

  lemma LateBitsKept(merged: bv32, b: bv32, late: bv32)
    requires HasBitsOf(merged, b, late) && Late(late)
    ensures SameEgressBits(merged, b)
  {
    forall name: TableName | name != TOutput
      ensures CheckBit(merged, name.Type().Code()) <==> CheckBit(b, name.Type().Code())
    {
      assert !CheckBit(late, name.Type().Code());
    }
  }

  /** Such bits, where a bucket adds them, come too late to have an effect: the packet is that of a miss. */
  lemma LateBitsDoNothing(target: Target, groups: GroupTables, tables: Tables, m: Metadata, port: bv32, h: Headers)
    requires GroupPort(m.groupId, port) in groups.egress && Late(groups.egress[GroupPort(m.groupId, port)])
    ensures Egress(target, groups, tables, m, port, h) ==
            Egress(target, groups.(egress := map[]), tables, m, port, h)
  {
    var merged := WithGroupBits(groups, m, port);
    GroupMiss(groups.(egress := map[]), m, port);
    EgressRewrites(target, groups, tables, m, merged, port, h);
    EgressRewrites(target, groups.(egress := map[]), tables, m, m, port, h);
    GroupHit(groups, m, port);
    GroupBits(groups, m, port);
    LateBitsKept(merged.bmap, m.bmap, groups.egress[GroupPort(m.groupId, port)]);
    RewriteReadsTestedBits(target, tables, merged, m.bmap, port, h);
  }

  /** The output and group bits are such bits. */
  lemma OutputAndGroupBitsAreLate(late: bv32)
    requires late & 0x400001 == late
    ensures Late(late)
  {
    forall name: TableName | name != TOutput
      ensures !CheckBit(late, name.Type().Code())
    {
      match name
      case TPopMpls =>
      case TPushMpls =>
      case TDecMplsTtl =>
      case TSetMplsTtl =>
      case TPopVlan =>
      case TPushVlan =>
      case TSetField =>
      case TDecNwTtlIpv4 =>
      case TDecNwTtlIpv6 =>
      case TSetNwTtlIpv4 =>
      case TSetNwTtlIpv6 =>
    }
  }

  // ----- ingress, group and output -----

  /** The group table goes first and the output table sees the port it chose: where both have an entry for a
      packet that asks for both, the port is that of the output and the multicast group that of the group. */
  lemma OutputFollowsGroup(groups: GroupTables, tables: Tables, m: Metadata, q: Queueing, i: nat, port: bv32)
    requires CheckBit(m.bmap, 22) && CheckBit(m.bmap, 0) && GroupId(m.groupId) in groups.ingress
    requires var entries := Entries(tables, TOutput);
             var seen := match groups.ingress[GroupId(m.groupId)]
                         case UnicastTo(ifindex) => ifindex
                         case MulticastTo(_) => q.egressSpec;
             && i < |entries| && entries[i].action == OfpatOutput(port)
             && entries[i].key.Matches(m.index, m.groupId, seen)
             && forall j :: 0 <= j < i ==> !entries[j].key.Matches(m.index, m.groupId, seen)
    ensures Ingress(groups, tables, m, q) ==
            match groups.ingress[GroupId(m.groupId)]
            case UnicastTo(_) => Queueing(port, q.mcastGrp)
            case MulticastTo(mcindex) => Queueing(port, mcindex)
  {
    LookupFinds(Entries(tables, TOutput), i, m.index, m.groupId, IngressGroup(groups, m, q).egressSpec);
  }

  /** And where no entry of the output table matches, the packet stays where the group table sent it. */
  lemma NoOutputEntry(groups: GroupTables, tables: Tables, m: Metadata, q: Queueing)
    requires forall e :: e in Entries(tables, TOutput) ==>
                           !e.key.Matches(m.index, m.groupId, IngressGroup(groups, m, q).egressSpec)
    ensures Ingress(groups, tables, m, q) == IngressGroup(groups, m, q)
  {
    LookupMisses(Entries(tables, TOutput), m.index, m.groupId, IngressGroup(groups, m, q).egressSpec);
  }
}
