/** The packet headers the openflow.p4 actions rewrite, those rewrites as
    functions, and the two orders in which an action set can be run. */
module Packets {
  import opened OpenFlow

  /** A label stack entry; `entry` is the label, traffic class and bottom-of-stack bit. */
  datatype Mpls = Mpls(entry: bv24, ttl: bv8)

  /** A VLAN tag; `priority` is the priority code point and drop indicator. */
  datatype Vlan = Vlan(priority: bv4, vid: bv12, etherType: bv16)

  /** An IP header, of which the actions see the TTL or hop limit. */
  datatype Ip = Invalid | Valid(ttl: bv8)

  /** The headers named by the actions. */
  datatype Headers = Headers(etherType: bv16, mpls: seq<Mpls>, vlan: seq<Vlan>, ipv4: Ip, ipv6: Ip)

  /** The depths the target declares for its two header stacks. */
  datatype Target = Target(mplsDepth: nat, vlanDepth: nat)

  /** add_header on element 0 of a stack: shifts the rest, and does nothing on a full stack. */
  function AddHeader<T>(stack: seq<T>, depth: nat, zero: T): seq<T> {
    if |stack| < depth then [zero] + stack else stack
  }

  /** remove_header on element 0 of a stack. */
  function RemoveHeader<T>(stack: seq<T>): seq<T> {
    if stack == [] then [] else stack[1..]
  }

  const ZERO_MPLS := Mpls(0, 0)
  const ZERO_VLAN := Vlan(0, 0, 0)

  // Writing a field of an absent header does nothing; popping an absent tag does nothing.

  function ModifyMplsTtl(h: Headers, ttl: bv8): Headers {
    if h.mpls == [] then h else h.(mpls := h.mpls[0 := h.mpls[0].(ttl := ttl)])
  }

  function ModifyVlan(h: Headers, tag: Vlan): Headers {
    if h.vlan == [] then h else h.(vlan := h.vlan[0 := tag])
  }

  /** The 8-bit field wraps: decrementing 0 gives 255. */
  function Decremented(ip: Ip): Ip
    requires ip.Valid?
  {
    Valid(ip.ttl - 1)
  }

  /** What one OpenFlow action does to the headers in this pipeline. */
  function Perform(target: Target, a: Action, h: Headers): Headers {
    match a
    case PopMpls => h.(mpls := RemoveHeader(h.mpls))
    case PushMpls => h.(etherType := 0x8847, mpls := AddHeader(h.mpls, target.mplsDepth, ZERO_MPLS))
    case DecMplsTtl => if h.mpls == [] then h else ModifyMplsTtl(h, h.mpls[0].ttl - 1)
    case SetMplsTtl(ttl) => ModifyMplsTtl(h, ttl)
    case PopVlan =>
      if h.vlan == [] then h else h.(etherType := h.vlan[0].etherType, vlan := RemoveHeader(h.vlan))
    case PushVlan =>
      var pushed := h.(etherType := 0x8100, vlan := AddHeader(h.vlan, target.vlanDepth, ZERO_VLAN));
      if pushed.vlan == [] then pushed else ModifyVlan(pushed, pushed.vlan[0].(etherType := 0x0800))
    case SetVlanVid(vid) =>
      if h.vlan == [] then h else ModifyVlan(h, h.vlan[0].(vid := (vid & 0xfff) as bv12))
    case DecNwTtl =>
      if h.ipv4.Valid? then h.(ipv4 := Decremented(h.ipv4))
      else if h.ipv6.Valid? then h.(ipv6 := Decremented(h.ipv6))
      else h
    case SetNwTtl(ttl) =>
      if h.ipv4.Valid? then h.(ipv4 := Valid(ttl))
      else if h.ipv6.Valid? then h.(ipv6 := Valid(ttl))
      else h
    case _ => h
  }

  /** Performs the last action of a type in a list, if there is one. */
  function PerformLast(target: Target, actions: seq<Action>, ty: ActionType, h: Headers): Headers {
    match LastOf(actions, ty)
    case None => h
    case Some(a) => Perform(target, a, h)
  }

  /** An action set run in the order of section 5.10 of the OpenFlow Switch Specification 1.3.0:
      pops, push-MPLS, push-VLAN, TTL decrements, then sets. Types that no table performs do nothing. */
  function RunInSpecOrder(target: Target, actions: seq<Action>, h: Headers): Headers {
    var h := PerformLast(target, actions, OFPAT_POP_MPLS, h);
    var h := PerformLast(target, actions, OFPAT_POP_VLAN, h);
    var h := PerformLast(target, actions, OFPAT_PUSH_MPLS, h);
    var h := PerformLast(target, actions, OFPAT_PUSH_VLAN, h);
    var h := PerformLast(target, actions, OFPAT_DEC_MPLS_TTL, h);
    var h := PerformLast(target, actions, OFPAT_DEC_NW_TTL, h);
    var h := PerformLast(target, actions, OFPAT_SET_MPLS_TTL, h);
    var h := PerformLast(target, actions, OFPAT_SET_FIELD, h);
    PerformLast(target, actions, OFPAT_SET_NW_TTL, h)
  }

  /** Whether the list is free of the actions that rewrite headers and that no table performs. */
  predicate Performed(actions: seq<Action>) {
    && LastOf(actions, OFPAT_COPY_TTL_IN).None? && LastOf(actions, OFPAT_COPY_TTL_OUT).None?
    && LastOf(actions, OFPAT_PUSH_PBB).None? && LastOf(actions, OFPAT_POP_PBB).None?
  }

  /** Every step of section 5.10 that rewrites headers, with a meaning given for the actions of other types. */
  function RunInFullSpecOrder(target: Target, other: (Action, Headers) -> Headers, actions: seq<Action>,
          h: Headers): Headers {
    var h := OtherLast(other, actions, OFPAT_COPY_TTL_IN, h);
    var h := PerformLast(target, actions, OFPAT_POP_MPLS, h);
    var h := PerformLast(target, actions, OFPAT_POP_VLAN, h);
    var h := OtherLast(other, actions, OFPAT_POP_PBB, h);
    var h := PerformLast(target, actions, OFPAT_PUSH_MPLS, h);
    var h := OtherLast(other, actions, OFPAT_PUSH_PBB, h);
    var h := PerformLast(target, actions, OFPAT_PUSH_VLAN, h);
    Tail(target, actions, OtherLast(other, actions, OFPAT_COPY_TTL_OUT, h))
  }

  function OtherLast(other: (Action, Headers) -> Headers, actions: seq<Action>, ty: ActionType, h: Headers): Headers {
    match LastOf(actions, ty)
    case None => h
    case Some(a) => other(a, h)
  }

  /** Without such actions the order is the one above, whatever they would mean. */
  lemma FullSpecOrder(target: Target, other: (Action, Headers) -> Headers, actions: seq<Action>, h: Headers)
    requires Performed(actions)
    ensures RunInFullSpecOrder(target, other, actions, h) == RunInSpecOrder(target, actions, h)
  {
    assert RunInSpecOrder(target, actions, h) == Tail(target, actions, SpecHead(target, actions, h));
  }

  function RunMplsActions(target: Target, actions: seq<Action>, h: Headers): Headers {
    var h := PerformLast(target, actions, OFPAT_POP_MPLS, h);
    var h := PerformLast(target, actions, OFPAT_PUSH_MPLS, h);
    var h := PerformLast(target, actions, OFPAT_DEC_MPLS_TTL, h);
    PerformLast(target, actions, OFPAT_SET_MPLS_TTL, h)
  }

  function RunVlanActions(target: Target, actions: seq<Action>, h: Headers): Headers {
    var h := PerformLast(target, actions, OFPAT_POP_VLAN, h);
    var h := PerformLast(target, actions, OFPAT_PUSH_VLAN, h);
    PerformLast(target, actions, OFPAT_SET_FIELD, h)
  }

  function RunIpActions(target: Target, actions: seq<Action>, h: Headers): Headers {
    var h := PerformLast(target, actions, OFPAT_DEC_NW_TTL, h);
    PerformLast(target, actions, OFPAT_SET_NW_TTL, h)
  }

  /** The same action set in the order of the egress control block: all of MPLS, all of VLAN, then IP. */
  function RunInPipelineOrder(target: Target, actions: seq<Action>, h: Headers): Headers {
    RunIpActions(target, actions, RunVlanActions(target, actions, RunMplsActions(target, actions, h)))
  }

  /** The one case in which the two orders disagree: the VLAN tag popped after a label was pushed
      hands its etherType to a frame that starts with a label, and no tag is pushed over it. */
  predicate Clash(actions: seq<Action>, h: Headers) {
    && LastOf(actions, OFPAT_PUSH_MPLS).Some?
    && LastOf(actions, OFPAT_POP_VLAN).Some?
    && LastOf(actions, OFPAT_PUSH_VLAN).None?
    && h.vlan != [] && h.vlan[0].etherType != 0x8847
  }

  // ----- the two orders agree, up to Clash -----

  predicate OnMpls(ty: ActionType) {
    ty.OFPAT_DEC_MPLS_TTL? || ty.OFPAT_SET_MPLS_TTL?
  }

  predicate OnVlan(ty: ActionType) {
    ty.OFPAT_PUSH_VLAN? || ty.OFPAT_POP_VLAN? || ty.OFPAT_SET_FIELD?
  }

  predicate OnIp(ty: ActionType) {
    ty.OFPAT_DEC_NW_TTL? || ty.OFPAT_SET_NW_TTL?
  }

  lemma MplsFootprint(target: Target, a: Action, h: Headers, k: Headers)
    requires OnMpls(a.Type())
    ensures Perform(target, a, k.(mpls := h.mpls)) == k.(mpls := Perform(target, a, h).mpls)
  {
  }

  lemma PushVlanOutsideMpls(target: Target, b: Action, h: Headers, m: seq<Mpls>)
    requires b.PushVlan?
    ensures Perform(target, b, h.(mpls := m)) == Perform(target, b, h).(mpls := m)
    ensures Perform(target, b, h).mpls == h.mpls
  {
  }

  lemma PopVlanOutsideMpls(target: Target, b: Action, h: Headers, m: seq<Mpls>)
    requires b.PopVlan?
    ensures Perform(target, b, h.(mpls := m)) == Perform(target, b, h).(mpls := m)
    ensures Perform(target, b, h).mpls == h.mpls
  {
  }

  lemma SetVidOutsideMpls(target: Target, b: Action, h: Headers, m: seq<Mpls>)
    requires b.SetVlanVid?
    ensures Perform(target, b, h.(mpls := m)) == Perform(target, b, h).(mpls := m)
    ensures Perform(target, b, h).mpls == h.mpls
  {
  }

  lemma IpOutsideMpls(target: Target, b: Action, h: Headers, m: seq<Mpls>)
    requires b.DecNwTtl? || b.SetNwTtl?
    ensures Perform(target, b, h.(mpls := m)) == Perform(target, b, h).(mpls := m)
    ensures Perform(target, b, h).mpls == h.mpls
  {
  }

  lemma MplsThenOther(target: Target, a: Action, b: Action, h: Headers)
    requires OnMpls(a.Type()) && (OnVlan(b.Type()) || OnIp(b.Type()))
    ensures Perform(target, a, Perform(target, b, h)) == Perform(target, b, Perform(target, a, h))
  {
    var m := Perform(target, a, h).mpls;
    MplsFootprint(target, a, h, h);
    MplsFootprint(target, a, h, Perform(target, b, h));
    if b.PushVlan? {
      PushVlanOutsideMpls(target, b, h, m);
    } else if b.PopVlan? {
      PopVlanOutsideMpls(target, b, h, m);
    } else if b.SetVlanVid? {
      SetVidOutsideMpls(target, b, h, m);
    } else {
      IpOutsideMpls(target, b, h, m);
    }
  }

  lemma IpFootprint(target: Target, b: Action, h: Headers, k: Headers)
    requires OnIp(b.Type())
    ensures var r := Perform(target, b, h);
            Perform(target, b, k.(ipv4 := h.ipv4, ipv6 := h.ipv6)) == k.(ipv4 := r.ipv4, ipv6 := r.ipv6)
  {
  }

  lemma PushVlanOutsideIp(target: Target, a: Action, h: Headers, k: Headers)
    requires a.PushVlan?
    ensures var r := Perform(target, a, h);
            && Perform(target, a, h.(ipv4 := k.ipv4, ipv6 := k.ipv6)) == r.(ipv4 := k.ipv4, ipv6 := k.ipv6)
            && r.ipv4 == h.ipv4 && r.ipv6 == h.ipv6
  {
  }

  lemma PopVlanOutsideIp(target: Target, a: Action, h: Headers, k: Headers)
    requires a.PopVlan?
    ensures var r := Perform(target, a, h);
            && Perform(target, a, h.(ipv4 := k.ipv4, ipv6 := k.ipv6)) == r.(ipv4 := k.ipv4, ipv6 := k.ipv6)
            && r.ipv4 == h.ipv4 && r.ipv6 == h.ipv6
  {
  }

  lemma SetVidOutsideIp(target: Target, a: Action, h: Headers, k: Headers)
    requires a.SetVlanVid?
    ensures var r := Perform(target, a, h);
            && Perform(target, a, h.(ipv4 := k.ipv4, ipv6 := k.ipv6)) == r.(ipv4 := k.ipv4, ipv6 := k.ipv6)
            && r.ipv4 == h.ipv4 && r.ipv6 == h.ipv6
  {
  }

  lemma VlanThenIp(target: Target, a: Action, b: Action, h: Headers)
    requires OnVlan(a.Type()) && OnIp(b.Type())
    ensures Perform(target, a, Perform(target, b, h)) == Perform(target, b, Perform(target, a, h))
  {
    var r := Perform(target, b, h);
    IpFootprint(target, b, h, h);
    IpFootprint(target, b, h, Perform(target, a, h));
    if a.PushVlan? {
      PushVlanOutsideIp(target, a, h, r);
    } else if a.PopVlan? {
      PopVlanOutsideIp(target, a, h, r);
    } else {
      SetVidOutsideIp(target, a, h, r);
    }
  }

  /** Rewrites of different layers commute. */
  lemma LayersCommute(target: Target, actions: seq<Action>, x: ActionType, y: ActionType, h: Headers)
    requires (OnMpls(x) && (OnVlan(y) || OnIp(y))) || (OnVlan(x) && OnIp(y))
    ensures PerformLast(target, actions, x, PerformLast(target, actions, y, h))
         == PerformLast(target, actions, y, PerformLast(target, actions, x, h))
  {
    var a, b := LastOf(actions, x), LastOf(actions, y);
    if a.Some? && b.Some? {
      if OnMpls(x) {
        MplsThenOther(target, a.value, b.value, h);
      } else {
        VlanThenIp(target, a.value, b.value, h);
      }
    }
  }

  /** What both orders run last: TTL decrements, then sets. */
  function Tail(target: Target, actions: seq<Action>, h: Headers): Headers {
    var h := PerformLast(target, actions, OFPAT_DEC_MPLS_TTL, h);
    var h := PerformLast(target, actions, OFPAT_DEC_NW_TTL, h);
    var h := PerformLast(target, actions, OFPAT_SET_MPLS_TTL, h);
    var h := PerformLast(target, actions, OFPAT_SET_FIELD, h);
    PerformLast(target, actions, OFPAT_SET_NW_TTL, h)
  }

  lemma BlindToEtherType(target: Target, actions: seq<Action>, ty: ActionType, h: Headers, e: bv16)
    requires OnMpls(ty) || OnIp(ty) || ty.OFPAT_SET_FIELD?
    ensures PerformLast(target, actions, ty, h.(etherType := e))
         == PerformLast(target, actions, ty, h).(etherType := e)
    ensures PerformLast(target, actions, ty, h).etherType == h.etherType
  {
    var a := LastOf(actions, ty);
    if a.Some? {
      match a.value
      case DecMplsTtl =>
      case SetMplsTtl(_) =>
      case SetVlanVid(_) =>
      case DecNwTtl =>
      case SetNwTtl(_) =>
    }
  }

  lemma TailBlindToEtherType(target: Target, actions: seq<Action>, h: Headers, e: bv16)
    ensures Tail(target, actions, h.(etherType := e)) == Tail(target, actions, h).(etherType := e)
    ensures Tail(target, actions, h).etherType == h.etherType
  {
    var h1 := PerformLast(target, actions, OFPAT_DEC_MPLS_TTL, h);
    var h2 := PerformLast(target, actions, OFPAT_DEC_NW_TTL, h1);
    var h3 := PerformLast(target, actions, OFPAT_SET_MPLS_TTL, h2);
    var h4 := PerformLast(target, actions, OFPAT_SET_FIELD, h3);
    BlindToEtherType(target, actions, OFPAT_DEC_MPLS_TTL, h, e);
    BlindToEtherType(target, actions, OFPAT_DEC_NW_TTL, h1, e);
    BlindToEtherType(target, actions, OFPAT_SET_MPLS_TTL, h2, e);
    BlindToEtherType(target, actions, OFPAT_SET_FIELD, h3, e);
    BlindToEtherType(target, actions, OFPAT_SET_NW_TTL, h4, e);
  }

  /** The headers once popping and pushing is over, in the order of the pipeline. */
  function PipelineHead(target: Target, actions: seq<Action>, h: Headers): Headers {
    var h := PerformLast(target, actions, OFPAT_POP_MPLS, h);
    var h := PerformLast(target, actions, OFPAT_PUSH_MPLS, h);
    var h := PerformLast(target, actions, OFPAT_POP_VLAN, h);
    PerformLast(target, actions, OFPAT_PUSH_VLAN, h)
  }

  function SpecHead(target: Target, actions: seq<Action>, h: Headers): Headers {
    var h := PerformLast(target, actions, OFPAT_POP_MPLS, h);
    var h := PerformLast(target, actions, OFPAT_POP_VLAN, h);
    var h := PerformLast(target, actions, OFPAT_PUSH_MPLS, h);
    PerformLast(target, actions, OFPAT_PUSH_VLAN, h)
  }

  lemma HeadsAgree(target: Target, actions: seq<Action>, h: Headers)
    ensures var p, s := PipelineHead(target, actions, h), SpecHead(target, actions, h);
            && p == s.(etherType := p.etherType)
            && (p == s <==> !Clash(actions, h))
  {
  }

  /** The pipeline may postpone its MPLS rewrites and bring its IP decrement forward. */
  lemma PipelineAsTail(target: Target, actions: seq<Action>, h: Headers)
    ensures RunInPipelineOrder(target, actions, h) == Tail(target, actions, PipelineHead(target, actions, h))
  {
    var push := PerformLast(target, actions, OFPAT_PUSH_MPLS, PerformLast(target, actions, OFPAT_POP_MPLS, h));
    var dec := PerformLast(target, actions, OFPAT_DEC_MPLS_TTL, push);
    // both MPLS TTL rewrites move past the VLAN pop and push
    var pop := PerformLast(target, actions, OFPAT_POP_VLAN, push);
    var head := PerformLast(target, actions, OFPAT_PUSH_VLAN, pop);
    LayersCommute(target, actions, OFPAT_SET_MPLS_TTL, OFPAT_POP_VLAN, dec);
    LayersCommute(target, actions, OFPAT_DEC_MPLS_TTL, OFPAT_POP_VLAN, push);
    var popDec := PerformLast(target, actions, OFPAT_DEC_MPLS_TTL, pop);
    LayersCommute(target, actions, OFPAT_SET_MPLS_TTL, OFPAT_PUSH_VLAN, popDec);
    LayersCommute(target, actions, OFPAT_DEC_MPLS_TTL, OFPAT_PUSH_VLAN, pop);
    // the IP decrement moves before the two sets
    var headDec := PerformLast(target, actions, OFPAT_DEC_MPLS_TTL, head);
    var headSet := PerformLast(target, actions, OFPAT_SET_MPLS_TTL, headDec);
    LayersCommute(target, actions, OFPAT_SET_FIELD, OFPAT_DEC_NW_TTL, headSet);
    LayersCommute(target, actions, OFPAT_SET_MPLS_TTL, OFPAT_DEC_NW_TTL, headDec);
  }

  /** Order refinement: the pipeline gives the packet of section 5.10 exactly when there is no
      clash, and in a clash the two packets differ in the etherType alone. */
  lemma OrderRefinement(target: Target, actions: seq<Action>, h: Headers)
    ensures var p, s := RunInPipelineOrder(target, actions, h), RunInSpecOrder(target, actions, h);
            && (p == s <==> !Clash(actions, h))
            && p == s.(etherType := p.etherType)
  {
    var p, s := PipelineHead(target, actions, h), SpecHead(target, actions, h);
    PipelineAsTail(target, actions, h);
    HeadsAgree(target, actions, h);
    TailBlindToEtherType(target, actions, s, p.etherType);
    assert RunInSpecOrder(target, actions, h) == Tail(target, actions, s);
  }

  /** A list that clashes: a label is pushed onto a tagged IPv4 frame whose tag is popped. */
  lemma ClashExists(target: Target)
    ensures var actions, h := [PushMpls, PopVlan], Headers(0x8100, [], [Vlan(0, 7, 0x0800)], Valid(64), Invalid);
            && Clash(actions, h)
            && RunInPipelineOrder(target, actions, h) != RunInSpecOrder(target, actions, h)
  {
    var actions, h := [PushMpls, PopVlan], Headers(0x8100, [], [Vlan(0, 7, 0x0800)], Valid(64), Invalid);
    LastOfPair(PushMpls, PopVlan, OFPAT_PUSH_MPLS);
    LastOfPair(PushMpls, PopVlan, OFPAT_POP_VLAN);
    LastOfPair(PushMpls, PopVlan, OFPAT_PUSH_VLAN);
    OrderRefinement(target, actions, h);
  }

  // ----- the actions, in numbers -----

  /** A pushed label is zero and lies on top of the others; a full stack takes none. */
  lemma PushMplsGives(target: Target, h: Headers)
    ensures |h.mpls| < target.mplsDepth ==>
              Perform(target, PushMpls, h) == h.(etherType := 0x8847, mpls := [Mpls(0, 0)] + h.mpls)
    ensures |h.mpls| >= target.mplsDepth ==> Perform(target, PushMpls, h) == h.(etherType := 0x8847)
  {
  }

  /** A pushed tag is zero but announces IPv4, and lies on top of the others. */
  lemma PushVlanGives(target: Target, h: Headers)
    ensures |h.vlan| < target.vlanDepth ==>
              Perform(target, PushVlan, h) == h.(etherType := 0x8100, vlan := [Vlan(0, 0, 0x0800)] + h.vlan)
    ensures |h.vlan| >= target.vlanDepth ==>
              Perform(target, PushVlan, h) ==
              h.(etherType := 0x8100,
                 vlan := if h.vlan == [] then [] else h.vlan[0 := Vlan(h.vlan[0].priority, h.vlan[0].vid, 0x0800)])
  {
  }

  /** The other MPLS actions act on the outermost label alone. */
  lemma MplsActionsGive(target: Target, h: Headers, entry: bv24, ttl: bv8, rest: seq<Mpls>, to: bv8)
    requires h.mpls == [Mpls(entry, ttl)] + rest
    ensures Perform(target, PopMpls, h) == h.(mpls := rest)
    ensures Perform(target, Action.DecMplsTtl, h) ==
            h.(mpls := [Mpls(entry, if ttl == 0 then 255 else ttl - 1)] + rest)
    ensures Perform(target, SetMplsTtl(to), h) == h.(mpls := [Mpls(entry, to)] + rest)
  {
  }

  /** The other VLAN actions act on the outermost tag alone; a pop hands its etherType to the frame. */
  lemma VlanActionsGive(target: Target, h: Headers, priority: bv4, id: bv12, announced: bv16, rest: seq<Vlan>,
          to: bv16)
    requires h.vlan == [Vlan(priority, id, announced)] + rest
    ensures Perform(target, PopVlan, h) == h.(etherType := announced, vlan := rest)
    ensures to < 0x1000 ==>
              Perform(target, SetVlanVid(to), h) == h.(vlan := [Vlan(priority, to as bv12, announced)] + rest)
  {
  }

  /** The IP actions act on an IPv4 header, and on an IPv6 header where there is no IPv4. */
  lemma IpActionsGive(target: Target, h: Headers, ttl: bv8, to: bv8)
    ensures h.ipv4 == Valid(ttl) ==>
              && Perform(target, Action.DecNwTtl, h) == h.(ipv4 := Valid(if ttl == 0 then 255 else ttl - 1))
              && Perform(target, SetNwTtl(to), h) == h.(ipv4 := Valid(to))
    ensures h.ipv4 == Invalid && h.ipv6 == Valid(ttl) ==>
              && Perform(target, Action.DecNwTtl, h) == h.(ipv6 := Valid(if ttl == 0 then 255 else ttl - 1))
              && Perform(target, SetNwTtl(to), h) == h.(ipv6 := Valid(to))
  {
  }

  /** Without the header an action needs, and where no table performs it, it does nothing. */
  lemma NothingToRewrite(target: Target, a: Action, h: Headers)
    requires (a.PopMpls? || a.DecMplsTtl? || a.SetMplsTtl?) ==> h.mpls == []
    requires (a.PopVlan? || a.SetVlanVid?) ==> h.vlan == []
    requires (a.DecNwTtl? || a.SetNwTtl?) ==> h.ipv4 == h.ipv6 == Invalid
    requires !a.PushMpls? && !a.PushVlan?
    ensures Perform(target, a, h) == h
  {
  }
}
