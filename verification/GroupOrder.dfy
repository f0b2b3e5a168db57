/** A group is the last step but one of an action set in section 5.10 of the OpenFlow
    Switch Specification 1.3.0: the bucket's own set runs after the flow's. The egress
    block runs both as one set. When the two give the same packets. */
module GroupOrder {
  import opened OpenFlow
  import opened Packets

  /** The flow's action set, then the bucket's, each in the order of section 5.10. */
  function Sequential(target: Target, flow: seq<Action>, bucket: seq<Action>, h: Headers): Headers {
    RunInSpecOrder(target, bucket, RunInSpecOrder(target, flow, h))
  }

  /** The types that rewrite headers. */
  predicate Rewrites(ty: ActionType) {
    ty.OFPAT_POP_MPLS? || ty.OFPAT_PUSH_MPLS? || OnMpls(ty) || OnVlan(ty) || OnIp(ty)
  }

  /** No type that rewrites headers occurs in both lists. */
  ghost predicate Disjoint(xs: seq<Action>, ys: seq<Action>) {
    forall ty: ActionType | Rewrites(ty) :: LastOf(xs, ty).None? || LastOf(ys, ty).None?
  }

  /** The stacks of a packet are no deeper than the target declares them. */
  predicate Fits(target: Target, h: Headers) {
    |h.mpls| <= target.mplsDepth && |h.vlan| <= target.vlanDepth
  }

  // ----- the rewrites of an action set, layer by layer -----

  function Either<T>(x: Option<T>, y: Option<T>): Option<T> {
    if y.Some? then y else x
  }

  datatype MplsSet = MplsSet(pop: bool, push: bool, dec: bool, ttl: Option<bv8>)
  {
    function Run(depth: nat, stack: seq<Mpls>): seq<Mpls> {
      var s := if pop then RemoveHeader(stack) else stack;
      var s := if push then AddHeader(s, depth, ZERO_MPLS) else s;
      if s == [] then s else s[0 := s[0].(ttl := Ttl(s[0].ttl))]
    }

    /** The TTL of the outermost label once decremented and set. */
    function Ttl(was: bv8): bv8 {
      if ttl.Some? then ttl.value else if dec then was - 1 else was
    }

    function Join(b: MplsSet): MplsSet {
      MplsSet(pop || b.pop, push || b.push, dec || b.dec, Either(ttl, b.ttl))
    }

    predicate Apart(b: MplsSet) {
      !(pop && b.pop) && !(push && b.push) && !(dec && b.dec) && (ttl.None? || b.ttl.None?)
    }
  }

  datatype VlanSet = VlanSet(pop: bool, push: bool, vid: Option<bv12>)
  {
    function Run(depth: nat, stack: seq<Vlan>): seq<Vlan> {
      var s := if pop then RemoveHeader(stack) else stack;
      var s := if push then AddHeader(s, depth, ZERO_VLAN) else s;
      if s == [] then s
      else
        var tag := if push then s[0].(etherType := 0x0800) else s[0];
        s[0 := if vid.Some? then tag.(vid := vid.value) else tag]
    }

    function Join(b: VlanSet): VlanSet {
      VlanSet(pop || b.pop, push || b.push, Either(vid, b.vid))
    }

    predicate Apart(b: VlanSet) {
      !(pop && b.pop) && !(push && b.push) && (vid.None? || b.vid.None?)
    }
  }

  datatype IpSet = IpSet(dec: bool, ttl: Option<bv8>)
  {
    function Run(ip: Ip): Ip {
      if ip.Invalid? then ip
      else Valid(if ttl.Some? then ttl.value else if dec then ip.ttl - 1 else ip.ttl)
    }

    function Join(b: IpSet): IpSet {
      IpSet(dec || b.dec, Either(ttl, b.ttl))
    }

    predicate Apart(b: IpSet) {
      !(dec && b.dec) && (ttl.None? || b.ttl.None?)
    }
  }

  function MplsOf(actions: seq<Action>): MplsSet {
    MplsSet(
      LastOf(actions, OFPAT_POP_MPLS).Some?,
      LastOf(actions, OFPAT_PUSH_MPLS).Some?,
      LastOf(actions, OFPAT_DEC_MPLS_TTL).Some?,
      match LastOf(actions, OFPAT_SET_MPLS_TTL) { case None => None case Some(a) => Some(a.mplsTtl) })
  }

  function VlanOf(actions: seq<Action>): VlanSet {
    VlanSet(
      LastOf(actions, OFPAT_POP_VLAN).Some?,
      LastOf(actions, OFPAT_PUSH_VLAN).Some?,
      match LastOf(actions, OFPAT_SET_FIELD) { case None => None case Some(a) => Some((a.vid & 0xfff) as bv12) })
  }

  function IpOf(actions: seq<Action>): IpSet {
    IpSet(
      LastOf(actions, OFPAT_DEC_NW_TTL).Some?,
      match LastOf(actions, OFPAT_SET_NW_TTL) { case None => None case Some(a) => Some(a.nwTtl) })
  }

  /** The IPv4 header takes the IP rewrites, and the IPv6 header only where there is none. */
  function RunIp(ip: IpSet, h: Headers): Headers {
    if h.ipv4.Valid? then h.(ipv4 := ip.Run(h.ipv4)) else h.(ipv6 := ip.Run(h.ipv6))
  }

  /** The etherType after the pushes and pops of a set in the pipeline's order: the last of them wins. */
  function PipelineEtherType(m: MplsSet, v: VlanSet, etherType: bv16, tags: seq<Vlan>): bv16 {
    if v.push then 0x8100
    else if v.pop && tags != [] then tags[0].etherType
    else if m.push then 0x8847
    else etherType
  }

  /** And in the order of section 5.10. */
  function SpecEtherType(m: MplsSet, v: VlanSet, etherType: bv16, tags: seq<Vlan>): bv16 {
    if v.push then 0x8100
    else if m.push then 0x8847
    else if v.pop && tags != [] then tags[0].etherType
    else etherType
  }

  lemma MplsHead(target: Target, actions: seq<Action>, h: Headers)
    ensures var m, r := MplsOf(actions),
                        PerformLast(target, actions, OFPAT_PUSH_MPLS, PerformLast(target, actions, OFPAT_POP_MPLS, h));
            var s := if m.pop then RemoveHeader(h.mpls) else h.mpls;
            r == h.(mpls := if m.push then AddHeader(s, target.mplsDepth, ZERO_MPLS) else s,
                    etherType := if m.push then 0x8847 else h.etherType)
  {
  }

  lemma DecMpls(target: Target, actions: seq<Action>, h: Headers)
    ensures PerformLast(target, actions, OFPAT_DEC_MPLS_TTL, h) ==
            if LastOf(actions, OFPAT_DEC_MPLS_TTL).None? || h.mpls == [] then h
            else h.(mpls := h.mpls[0 := h.mpls[0].(ttl := h.mpls[0].ttl - 1)])
  {
  }

  lemma SetMpls(target: Target, actions: seq<Action>, h: Headers)
    ensures var last := LastOf(actions, OFPAT_SET_MPLS_TTL);
            PerformLast(target, actions, OFPAT_SET_MPLS_TTL, h) ==
            if last.None? || h.mpls == [] then h
            else h.(mpls := h.mpls[0 := h.mpls[0].(ttl := last.value.mplsTtl)])
  {
  }

  lemma MplsTail(target: Target, actions: seq<Action>, h: Headers)
    ensures var m, r := MplsOf(actions), PerformLast(target, actions, OFPAT_SET_MPLS_TTL,
                                                     PerformLast(target, actions, OFPAT_DEC_MPLS_TTL, h));
            r == if h.mpls == [] then h else h.(mpls := h.mpls[0 := h.mpls[0].(ttl := m.Ttl(h.mpls[0].ttl))])
  {
    DecMpls(target, actions, h);
    SetMpls(target, actions, PerformLast(target, actions, OFPAT_DEC_MPLS_TTL, h));
  }

  lemma MplsLayer(target: Target, actions: seq<Action>, h: Headers)
    ensures var m := MplsOf(actions);
            RunMplsActions(target, actions, h) ==
            h.(mpls := m.Run(target.mplsDepth, h.mpls), etherType := if m.push then 0x8847 else h.etherType)
  {
    MplsHead(target, actions, h);
    var head := PerformLast(target, actions, OFPAT_PUSH_MPLS, PerformLast(target, actions, OFPAT_POP_MPLS, h));
    MplsTail(target, actions, head);
  }

  lemma VlanHead(target: Target, actions: seq<Action>, h: Headers)
    ensures var v, r := VlanOf(actions),
                        PerformLast(target, actions, OFPAT_PUSH_VLAN, PerformLast(target, actions, OFPAT_POP_VLAN, h));
            var s := if v.pop then RemoveHeader(h.vlan) else h.vlan;
            var s := if v.push then AddHeader(s, target.vlanDepth, ZERO_VLAN) else s;
            r == h.(vlan := if v.push && s != [] then s[0 := s[0].(etherType := 0x0800)] else s,
                    etherType := if v.push then 0x8100
                                 else if v.pop && h.vlan != [] then h.vlan[0].etherType else h.etherType)
  {
  }

  lemma VlanLayer(target: Target, actions: seq<Action>, h: Headers)
    ensures var v := VlanOf(actions);
            RunVlanActions(target, actions, h) ==
            h.(vlan := v.Run(target.vlanDepth, h.vlan),
               etherType := if v.push then 0x8100
                            else if v.pop && h.vlan != [] then h.vlan[0].etherType else h.etherType)
  {
    VlanHead(target, actions, h);
  }

  lemma NoIpActions(h: Headers)
    ensures RunIp(IpSet(false, None), h) == h
  {
  }

  lemma OneDecNw(target: Target, h: Headers)
    ensures Perform(target, Action.DecNwTtl, h) == RunIp(IpSet(true, None), h)
  {
  }

  lemma OneSetNw(target: Target, ttl: bv8, h: Headers)
    ensures Perform(target, SetNwTtl(ttl), h) == RunIp(IpSet(false, Some(ttl)), h)
  {
  }

  lemma DecNw(target: Target, actions: seq<Action>, h: Headers)
    ensures PerformLast(target, actions, OFPAT_DEC_NW_TTL, h) ==
            RunIp(IpSet(LastOf(actions, OFPAT_DEC_NW_TTL).Some?, None), h)
  {
    NoIpActions(h);
    OneDecNw(target, h);
  }

  lemma SetNw(target: Target, actions: seq<Action>, h: Headers)
    ensures PerformLast(target, actions, OFPAT_SET_NW_TTL, h) == RunIp(IpSet(false, IpOf(actions).ttl), h)
  {
    var last := LastOf(actions, OFPAT_SET_NW_TTL);
    if last.Some? {
      OneSetNw(target, last.value.nwTtl, h);
    } else {
      NoIpActions(h);
    }
  }

  lemma IpLayer(target: Target, actions: seq<Action>, h: Headers)
    ensures RunIpActions(target, actions, h) == RunIp(IpOf(actions), h)
  {
    var ip := IpOf(actions);
    DecNw(target, actions, h);
    SetNw(target, actions, RunIp(IpSet(ip.dec, None), h));
    IpKept(IpSet(ip.dec, None), IpSet(false, ip.ttl), h);
  }

  /** The packet that an etherType and the layers' rewrites make of a packet. */
  function Assemble(h: Headers, etherType: bv16, mpls: seq<Mpls>, vlan: seq<Vlan>, ip: Headers): Headers {
    h.(etherType := etherType, mpls := mpls, vlan := vlan, ipv4 := ip.ipv4, ipv6 := ip.ipv6)
  }

  /** The IP rewrites see the IP headers alone. */
  lemma SameIp(ip: IpSet, h: Headers, k: Headers)
    requires h.ipv4 == k.ipv4 && h.ipv6 == k.ipv6
    ensures RunIp(ip, h).ipv4 == RunIp(ip, k).ipv4 && RunIp(ip, h).ipv6 == RunIp(ip, k).ipv6
    ensures RunIp(ip, h) == h.(ipv4 := RunIp(ip, h).ipv4, ipv6 := RunIp(ip, h).ipv6)
  {
  }

  /** An action set in the pipeline's order, layer by layer. */
  lemma PipelineLayers(target: Target, actions: seq<Action>, h: Headers)
    ensures var m, v := MplsOf(actions), VlanOf(actions);
            RunInPipelineOrder(target, actions, h) ==
            Assemble(h, PipelineEtherType(m, v, h.etherType, h.vlan), m.Run(target.mplsDepth, h.mpls),
                     v.Run(target.vlanDepth, h.vlan), RunIp(IpOf(actions), h))
  {
    var h1 := RunMplsActions(target, actions, h);
    var h2 := RunVlanActions(target, actions, h1);
    MplsLayer(target, actions, h);
    VlanLayer(target, actions, h1);
    IpLayer(target, actions, h2);
    SameIp(IpOf(actions), h2, h);
  }

  lemma SpecHeadEtherType(target: Target, actions: seq<Action>, h: Headers)
    ensures SpecHead(target, actions, h).etherType ==
            SpecEtherType(MplsOf(actions), VlanOf(actions), h.etherType, h.vlan)
  {
  }

  /** What a set makes of a packet in the order of section 5.10, layer by layer. */
  predicate Made(target: Target, actions: seq<Action>, h: Headers, r: Headers) {
    var m, v := MplsOf(actions), VlanOf(actions);
    r == Assemble(h, SpecEtherType(m, v, h.etherType, h.vlan), m.Run(target.mplsDepth, h.mpls),
                  v.Run(target.vlanDepth, h.vlan), RunIp(IpOf(actions), h))
  }

  /** There the layers are the same, and only the etherType may not be. */
  lemma SpecLayers(target: Target, actions: seq<Action>, h: Headers)
    ensures Made(target, actions, h, RunInSpecOrder(target, actions, h))
  {
    var s := SpecHead(target, actions, h);
    OrderRefinement(target, actions, h);
    PipelineLayers(target, actions, h);
    SpecHeadEtherType(target, actions, h);
    TailBlindToEtherType(target, actions, s, s.etherType);
    assert RunInSpecOrder(target, actions, h) == Tail(target, actions, s);
  }

  // ----- one set or two, in each layer -----

  /** No MPLS rewrite of the flow comes after one of the bucket that it would have to precede: none past
      a pop, a push or a decrement of the bucket, but where the bucket hides the difference. A popped label
      takes the flow's decrement with it if the bucket sets the TTL, and the flow's TTL if the bucket pushes
      a label that ends with the same. */
  predicate MplsInOrder(f: MplsSet, b: MplsSet) {
    if b.pop then
      && !f.push
      && if f.ttl.Some? then b.push && f.ttl.value == b.Ttl(0)
         else f.dec ==> b.ttl.Some?
    else if b.push then !f.dec && f.ttl.None?
    else b.dec ==> f.ttl.None?
  }

  predicate VlanInOrder(f: VlanSet, b: VlanSet) {
    if b.pop then !f.push && (f.vid.Some? ==> b.push && f.vid.value == 0)
    else b.push ==> f.vid.None?
  }

  predicate IpInOrder(f: IpSet, b: IpSet) {
    b.dec ==> f.ttl.None?
  }

  /** The last push or pop that decides the etherType is the same in both orders: a VLAN push of the bucket;
      or a VLAN push of the flow, and then the bucket pushes no label; or, where labels are pushed and tags
      popped, a pop of the bucket after a push of the flow. */
  predicate EtherTypeInOrder(fm: MplsSet, fv: VlanSet, bm: MplsSet, bv: VlanSet) {
    || bv.push
    || (if fv.push then !bm.push
        else (fm.push || bm.push) && (fv.pop || bv.pop) ==> fm.push && bv.pop)
  }

  /** What the lists must satisfy for one set to do what two do. */
  predicate InOrder(flow: seq<Action>, bucket: seq<Action>) {
    && MplsInOrder(MplsOf(flow), MplsOf(bucket))
    && VlanInOrder(VlanOf(flow), VlanOf(bucket))
    && IpInOrder(IpOf(flow), IpOf(bucket))
    && EtherTypeInOrder(MplsOf(flow), VlanOf(flow), MplsOf(bucket), VlanOf(bucket))
  }

  lemma MplsKept(depth: nat, f: MplsSet, b: MplsSet, stack: seq<Mpls>)
    requires f.Apart(b) && MplsInOrder(f, b) && |stack| <= depth
    ensures f.Join(b).Run(depth, stack) == b.Run(depth, f.Run(depth, stack))
  {
  }

  lemma VlanKept(depth: nat, f: VlanSet, b: VlanSet, stack: seq<Vlan>)
    requires f.Apart(b) && VlanInOrder(f, b) && |stack| <= depth
    ensures f.Join(b).Run(depth, stack) == b.Run(depth, f.Run(depth, stack))
  {
  }

  lemma IpRunKept(f: IpSet, b: IpSet, ip: Ip)
    requires f.Apart(b) && IpInOrder(f, b)
    ensures f.Join(b).Run(ip) == b.Run(f.Run(ip))
    ensures f.Run(ip).Valid? <==> ip.Valid?
  {
  }

  lemma IpKept(f: IpSet, b: IpSet, h: Headers)
    requires f.Apart(b) && IpInOrder(f, b)
    ensures RunIp(f.Join(b), h) == RunIp(b, RunIp(f, h))
  {
    IpRunKept(f, b, h.ipv4);
    IpRunKept(f, b, h.ipv6);
  }

  lemma EtherTypeKept(depth: nat, fm: MplsSet, fv: VlanSet, bm: MplsSet, bv: VlanSet, etherType: bv16,
          tags: seq<Vlan>)
    requires fm.Apart(bm) && fv.Apart(bv) && VlanInOrder(fv, bv) && EtherTypeInOrder(fm, fv, bm, bv)
    ensures PipelineEtherType(fm.Join(bm), fv.Join(bv), etherType, tags) ==
            SpecEtherType(bm, bv, SpecEtherType(fm, fv, etherType, tags), fv.Run(depth, tags))
  {
  }

  // ----- one set or two, for every packet -----

  lemma JoinedMpls(flow: seq<Action>, bucket: seq<Action>)
    ensures MplsOf(flow + bucket) == MplsOf(flow).Join(MplsOf(bucket))
  {
    LastOfAppend(flow, bucket, OFPAT_POP_MPLS);
    LastOfAppend(flow, bucket, OFPAT_PUSH_MPLS);
    LastOfAppend(flow, bucket, OFPAT_DEC_MPLS_TTL);
    LastOfAppend(flow, bucket, OFPAT_SET_MPLS_TTL);
  }

  lemma JoinedVlan(flow: seq<Action>, bucket: seq<Action>)
    ensures VlanOf(flow + bucket) == VlanOf(flow).Join(VlanOf(bucket))
  {
    LastOfAppend(flow, bucket, OFPAT_POP_VLAN);
    LastOfAppend(flow, bucket, OFPAT_PUSH_VLAN);
    LastOfAppend(flow, bucket, OFPAT_SET_FIELD);
  }

  lemma JoinedIp(flow: seq<Action>, bucket: seq<Action>)
    ensures IpOf(flow + bucket) == IpOf(flow).Join(IpOf(bucket))
  {
    LastOfAppend(flow, bucket, OFPAT_DEC_NW_TTL);
    LastOfAppend(flow, bucket, OFPAT_SET_NW_TTL);
  }

  lemma SetsApart(flow: seq<Action>, bucket: seq<Action>)
    requires Disjoint(flow, bucket)
    ensures MplsOf(flow).Apart(MplsOf(bucket)) && VlanOf(flow).Apart(VlanOf(bucket)) && IpOf(flow).Apart(IpOf(bucket))
  {
  }

  lemma OneSet(target: Target, flow: seq<Action>, bucket: seq<Action>, h: Headers)
    ensures var m, v := MplsOf(flow).Join(MplsOf(bucket)), VlanOf(flow).Join(VlanOf(bucket));
            RunInPipelineOrder(target, flow + bucket, h) ==
            Assemble(h, PipelineEtherType(m, v, h.etherType, h.vlan), m.Run(target.mplsDepth, h.mpls),
                     v.Run(target.vlanDepth, h.vlan), RunIp(IpOf(flow).Join(IpOf(bucket)), h))
  {
    JoinedMpls(flow, bucket);
    JoinedVlan(flow, bucket);
    JoinedIp(flow, bucket);
    PipelineLayers(target, flow + bucket, h);
  }

  lemma AssembleTwice(target: Target, flow: seq<Action>, bucket: seq<Action>, h: Headers, h1: Headers, h2: Headers)
    requires Made(target, flow, h, h1) && Made(target, bucket, h1, h2)
    ensures var fm, fv, bm, bv := MplsOf(flow), VlanOf(flow), MplsOf(bucket), VlanOf(bucket);
            var tags, stack := fv.Run(target.vlanDepth, h.vlan), fm.Run(target.mplsDepth, h.mpls);
            h2 == Assemble(h, SpecEtherType(bm, bv, SpecEtherType(fm, fv, h.etherType, h.vlan), tags),
                           bm.Run(target.mplsDepth, stack), bv.Run(target.vlanDepth, tags),
                           RunIp(IpOf(bucket), RunIp(IpOf(flow), h)))
  {
    SameIp(IpOf(bucket), h1, RunIp(IpOf(flow), h));
  }

  lemma TwoSets(target: Target, flow: seq<Action>, bucket: seq<Action>, h: Headers)
    ensures var fm, fv, bm, bv := MplsOf(flow), VlanOf(flow), MplsOf(bucket), VlanOf(bucket);
            var tags, stack := fv.Run(target.vlanDepth, h.vlan), fm.Run(target.mplsDepth, h.mpls);
            Sequential(target, flow, bucket, h) ==
            Assemble(h, SpecEtherType(bm, bv, SpecEtherType(fm, fv, h.etherType, h.vlan), tags),
                     bm.Run(target.mplsDepth, stack), bv.Run(target.vlanDepth, tags),
                     RunIp(IpOf(bucket), RunIp(IpOf(flow), h)))
  {
    var h1 := RunInSpecOrder(target, flow, h);
    SpecLayers(target, flow, h);
    SpecLayers(target, bucket, h1);
    AssembleTwice(target, flow, bucket, h, h1, RunInSpecOrder(target, bucket, h1));
  }

  /** Where the lists are in order, one set does to every packet what the two do in sequence. */
  lemma InOrderSuffices(target: Target, flow: seq<Action>, bucket: seq<Action>, h: Headers)
    requires Disjoint(flow, bucket) && InOrder(flow, bucket) && Fits(target, h)
    ensures RunInPipelineOrder(target, flow + bucket, h) == Sequential(target, flow, bucket, h)
  {
    var fm, fv, bm, bv := MplsOf(flow), VlanOf(flow), MplsOf(bucket), VlanOf(bucket);
    SetsApart(flow, bucket);
    OneSet(target, flow, bucket, h);
    TwoSets(target, flow, bucket, h);
    MplsKept(target.mplsDepth, fm, bm, h.mpls);
    VlanKept(target.vlanDepth, fv, bv, h.vlan);
    IpKept(IpOf(flow), IpOf(bucket), h);
    EtherTypeKept(target.vlanDepth, fm, fv, bm, bv, h.etherType, h.vlan);
  }

  /** A packet that tells: two labels and two tags that differ from what the flow sets. */
  function Telltale(flow: seq<Action>): Headers {
    Headers(0x8100, TellLabels(MplsOf(flow)), TellTags(VlanOf(flow)), Valid(64), Invalid)
  }

  function TellLabels(f: MplsSet): seq<Mpls> {
    var ttl := if f.ttl.Some? then f.ttl.value + 2 else 2;
    [Mpls(1, ttl), Mpls(2, ttl)]
  }

  function TellTags(f: VlanSet): seq<Vlan> {
    var vid := if f.vid.Some? then f.vid.value + 1 else 1;
    [Vlan(1, vid, 0x0800), Vlan(1, vid, 0x0800)]
  }

  const ROOMY := Target(3, 3)

  lemma LabelsTell(f: MplsSet, b: MplsSet)
    requires f.Apart(b) && !MplsInOrder(f, b)
    ensures f.Join(b).Run(3, TellLabels(f)) != b.Run(3, f.Run(3, TellLabels(f)))
  {
    var p, q := f.Join(b).Run(3, TellLabels(f)), b.Run(3, f.Run(3, TellLabels(f)));
    if b.pop && f.push {
      assert p[0].entry != q[0].entry;
    } else if !b.pop && b.push {
      assert p[1].ttl != q[1].ttl;
    } else {
      assert p[0].ttl != q[0].ttl;
    }
  }

  lemma TagsTell(f: VlanSet, b: VlanSet)
    requires f.Apart(b) && !VlanInOrder(f, b)
    ensures f.Join(b).Run(3, TellTags(f)) != b.Run(3, f.Run(3, TellTags(f)))
  {
    var p, q := f.Join(b).Run(3, TellTags(f)), b.Run(3, f.Run(3, TellTags(f)));
    if b.pop && f.push {
      assert p[0].priority != q[0].priority;
    } else if !b.pop && b.push {
      assert p[1].vid != q[1].vid;
    } else {
      assert p[0].vid != q[0].vid;
    }
  }

  lemma TtlTells(f: IpSet, b: IpSet, h: Headers)
    requires f.Apart(b) && !IpInOrder(f, b) && h.ipv4.Valid?
    ensures RunIp(f.Join(b), h).ipv4 != RunIp(b, RunIp(f, h)).ipv4
  {
  }

  lemma EtherTypeTells(fm: MplsSet, fv: VlanSet, bm: MplsSet, bv: VlanSet, etherType: bv16)
    requires fm.Apart(bm) && fv.Apart(bv) && VlanInOrder(fv, bv) && !EtherTypeInOrder(fm, fv, bm, bv)
    ensures PipelineEtherType(fm.Join(bm), fv.Join(bv), etherType, TellTags(fv)) !=
            SpecEtherType(bm, bv, SpecEtherType(fm, fv, etherType, TellTags(fv)), fv.Run(3, TellTags(fv)))
  {
  }

  /** Where they are not, there is a packet that tells. */
  lemma OutOfOrderTells(flow: seq<Action>, bucket: seq<Action>)
    requires Disjoint(flow, bucket) && !InOrder(flow, bucket)
    ensures var h := Telltale(flow);
            && Fits(ROOMY, h)
            && RunInPipelineOrder(ROOMY, flow + bucket, h) != Sequential(ROOMY, flow, bucket, h)
  {
    var fm, fv, bm, bv := MplsOf(flow), VlanOf(flow), MplsOf(bucket), VlanOf(bucket);
    var h := Telltale(flow);
    SetsApart(flow, bucket);
    OneSet(ROOMY, flow, bucket, h);
    TwoSets(ROOMY, flow, bucket, h);
    if !MplsInOrder(fm, bm) {
      LabelsTell(fm, bm);
    } else if !VlanInOrder(fv, bv) {
      TagsTell(fv, bv);
    } else if !IpInOrder(IpOf(flow), IpOf(bucket)) {
      TtlTells(IpOf(flow), IpOf(bucket), h);
    } else {
      EtherTypeTells(fm, fv, bm, bv, h.etherType);
    }
  }

  /** One set in the pipeline's order is the flow's set followed by the bucket's, as section 5.10 asks, for
      every packet of every target, exactly when the lists are in order. */
  lemma OneSetIsTwo(flow: seq<Action>, bucket: seq<Action>)
    requires Disjoint(flow, bucket)
    ensures (forall target: Target, h: Headers | Fits(target, h) ::
               RunInPipelineOrder(target, flow + bucket, h) == Sequential(target, flow, bucket, h))
            <==> InOrder(flow, bucket)
  {
    if InOrder(flow, bucket) {
      forall target: Target, h: Headers | Fits(target, h)
        ensures RunInPipelineOrder(target, flow + bucket, h) == Sequential(target, flow, bucket, h)
      {
        InOrderSuffices(target, flow, bucket, h);
      }
    } else {
      OutOfOrderTells(flow, bucket);
    }
  }

  // ----- examples -----

  /** A flow that rewrites headers by one action and then sends to a group of one action. */
  lemma SmallSets(a: Action, b: Action)
    requires Rewrites(a.Type()) && Rewrites(b.Type()) && a.Type() != b.Type()
    ensures var flow, bucket := [a, Group(1)], [b];
            && Disjoint(flow, bucket)
            && (forall ty: ActionType | Rewrites(ty) ::
                  && LastOf(flow, ty) == (if a.Type() == ty then Some(a) else None)
                  && LastOf(bucket, ty) == (if b.Type() == ty then Some(b) else None))
  {
    forall ty: ActionType | Rewrites(ty)
      ensures LastOf([a, Group(1)], ty) == (if a.Type() == ty then Some(a) else None)
      ensures LastOf([b], ty) == (if b.Type() == ty then Some(b) else None)
    {
      LastOfPair(a, Group(1), ty);
      LastOfOne(b, ty);
    }
  }

  lemma TagsOfSets(target: Target, flow: seq<Action>, bucket: seq<Action>, h: Headers)
    ensures RunInPipelineOrder(target, flow + bucket, h).vlan ==
            VlanOf(flow).Join(VlanOf(bucket)).Run(target.vlanDepth, h.vlan)
    ensures Sequential(target, flow, bucket, h).vlan ==
            VlanOf(bucket).Run(target.vlanDepth, VlanOf(flow).Run(target.vlanDepth, h.vlan))
  {
    OneSet(target, flow, bucket, h);
    TwoSets(target, flow, bucket, h);
  }

  /** A flow sets the id of a packet's outer tag and the bucket pops that tag. In the switch the pop comes
      first, and the id goes to the inner tag. */
  lemma SetLandsOnInnerTag(target: Target)
    requires target.vlanDepth >= 2
    ensures var flow, bucket := [SetVlanVid(5), Group(1)], [PopVlan];
            var h := Headers(0x8100, [], [Vlan(0, 7, 0x8100), Vlan(0, 9, 0x0800)], Valid(64), Invalid);
            && Disjoint(flow, bucket) && !InOrder(flow, bucket) && Fits(target, h)
            && RunInPipelineOrder(target, flow + bucket, h).vlan == [Vlan(0, 5, 0x0800)]
            && Sequential(target, flow, bucket, h).vlan == [Vlan(0, 9, 0x0800)]
  {
    var flow, bucket := [SetVlanVid(5), Group(1)], [PopVlan];
    var h := Headers(0x8100, [], [Vlan(0, 7, 0x8100), Vlan(0, 9, 0x0800)], Valid(64), Invalid);
    SmallSets(SetVlanVid(5), PopVlan);
    assert VlanOf(flow) == VlanSet(false, false, Some(5)) && VlanOf(bucket) == VlanSet(true, false, None);
    TagsOfSets(target, flow, bucket, h);
  }

  /** A flow pushes a label and the bucket pops a tag: one set of the two would clash, and still the switch
      does what section 5.10 asks. */
  lemma ClashBetweenSetsIsNone(target: Target, h: Headers)
    requires Fits(target, h)
    ensures var flow, bucket := [PushMpls, Group(1)], [PopVlan];
            && Disjoint(flow, bucket) && InOrder(flow, bucket)
            && RunInPipelineOrder(target, flow + bucket, h) == Sequential(target, flow, bucket, h)
            && (Clash(flow + bucket, h) <==> h.vlan != [] && h.vlan[0].etherType != 0x8847)
  {
    var flow, bucket := [PushMpls, Group(1)], [PopVlan];
    SmallSets(PushMpls, PopVlan);
    LastOfAppend(flow, bucket, OFPAT_PUSH_MPLS);
    LastOfAppend(flow, bucket, OFPAT_POP_VLAN);
    LastOfAppend(flow, bucket, OFPAT_PUSH_VLAN);
    InOrderSuffices(target, flow, bucket, h);
  }
}
