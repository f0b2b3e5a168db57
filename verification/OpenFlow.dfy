/** OpenFlow 1.3 actions as the agent receives them: their types and wire codes,
    the argument each carries, and the action of each type that survives when a
    list is folded into an action set. */
module OpenFlow {
  datatype Option<+T> = None | Some(value: T)

  const OFPP_FLOOD: bv32 := 0xfffffffb
  const OFPP_ALL: bv32 := 0xfffffffc

  datatype ActionType =
    | OFPAT_OUTPUT
    | OFPAT_COPY_TTL_OUT
    | OFPAT_COPY_TTL_IN
    | OFPAT_SET_MPLS_TTL
    | OFPAT_DEC_MPLS_TTL
    | OFPAT_PUSH_VLAN
    | OFPAT_POP_VLAN
    | OFPAT_PUSH_MPLS
    | OFPAT_POP_MPLS
    | OFPAT_SET_QUEUE
    | OFPAT_GROUP
    | OFPAT_SET_NW_TTL
    | OFPAT_DEC_NW_TTL
    | OFPAT_SET_FIELD
    | OFPAT_PUSH_PBB
    | OFPAT_POP_PBB
  {
    /** The number of the type on the wire, and its bit in a signature. */
    function Code(): (code: bv16)
      ensures code < 32
    {
      match this
      case OFPAT_OUTPUT => 0
      case OFPAT_COPY_TTL_OUT => 11
      case OFPAT_COPY_TTL_IN => 12
      case OFPAT_SET_MPLS_TTL => 15
      case OFPAT_DEC_MPLS_TTL => 16
      case OFPAT_PUSH_VLAN => 17
      case OFPAT_POP_VLAN => 18
      case OFPAT_PUSH_MPLS => 19
      case OFPAT_POP_MPLS => 20
      case OFPAT_SET_QUEUE => 21
      case OFPAT_GROUP => 22
      case OFPAT_SET_NW_TTL => 23
      case OFPAT_DEC_NW_TTL => 24
      case OFPAT_SET_FIELD => 25
      case OFPAT_PUSH_PBB => 26
      case OFPAT_POP_PBB => 27
    }

    /** Whether actions of the type come with an argument. */
    predicate Carries() {
      OFPAT_OUTPUT? || OFPAT_SET_MPLS_TTL? || OFPAT_SET_QUEUE? || OFPAT_GROUP? || OFPAT_SET_NW_TTL? || OFPAT_SET_FIELD?
    }
  }

  /** What the C variable `arg` points at; Unset is its indeterminate initial value. */
  datatype Arg = Unset | U8(byte: bv8) | U16(half: bv16) | U32(word: bv32)

  datatype Action =
    | Output(port: bv32)
    | CopyTtlOut
    | CopyTtlIn
    | SetMplsTtl(mplsTtl: bv8)
    | DecMplsTtl
    | PushVlan
    | PopVlan
    | PushMpls
    | PopMpls
    | SetQueue(queue: bv32)
    | Group(group: bv32)
    | SetNwTtl(nwTtl: bv8)
    | DecNwTtl
    | SetVlanVid(vid: bv16)  // the one SET_FIELD the agent supports
    | PushPbb
    | PopPbb
  {
    function Type(): ActionType {
      match this
      case Output(_) => OFPAT_OUTPUT
      case CopyTtlOut => OFPAT_COPY_TTL_OUT
      case CopyTtlIn => OFPAT_COPY_TTL_IN
      case SetMplsTtl(_) => OFPAT_SET_MPLS_TTL
      case DecMplsTtl => OFPAT_DEC_MPLS_TTL
      case PushVlan => OFPAT_PUSH_VLAN
      case PopVlan => OFPAT_POP_VLAN
      case PushMpls => OFPAT_PUSH_MPLS
      case PopMpls => OFPAT_POP_MPLS
      case SetQueue(_) => OFPAT_SET_QUEUE
      case Group(_) => OFPAT_GROUP
      case SetNwTtl(_) => OFPAT_SET_NW_TTL
      case DecNwTtl => OFPAT_DEC_NW_TTL
      case SetVlanVid(_) => OFPAT_SET_FIELD
      case PushPbb => OFPAT_PUSH_PBB
      case PopPbb => OFPAT_POP_PBB
    }

    function Argument(): Arg
      requires Type().Carries()
    {
      match this
      case Output(p) => U32(p)
      case SetMplsTtl(t) => U8(t)
      case SetQueue(q) => U32(q)
      case Group(g) => U32(g)
      case SetNwTtl(t) => U8(t)
      case SetVlanVid(v) => U16(v)
    }
  }

  /** The last action of the given type in a list, if there is one. */
  function LastOf(actions: seq<Action>, ty: ActionType): (r: Option<Action>)
    ensures r.Some? ==> r.value.Type() == ty
  {
    if actions == [] then None
    else if actions[|actions| - 1].Type() == ty then Some(actions[|actions| - 1])
    else LastOf(actions[..|actions| - 1], ty)
  }

  /** LastOf fails only where the type does not occur, and otherwise finds, at the index
      returned, an action that no later action of its type follows. */
  lemma {:induction false} LastOfMeaning(actions: seq<Action>, ty: ActionType) returns (i: int)
    ensures LastOf(actions, ty).None? <==> forall a :: a in actions ==> a.Type() != ty
    ensures LastOf(actions, ty).Some? ==>
              && 0 <= i < |actions| && LastOf(actions, ty) == Some(actions[i])
              && forall j :: i < j < |actions| ==> actions[j].Type() != ty
  {
    i := |actions| - 1;
    if actions != [] && actions[i].Type() != ty {
      var init := actions[..i];
      assert forall a :: a in actions <==> a == actions[|init|] || a in init;
      i := LastOfMeaning(init, ty);
    }
  }

  lemma LastOfOne(a: Action, ty: ActionType)
    ensures LastOf([a], ty) == if a.Type() == ty then Some(a) else None
  {
    assert [a][..0] == [] && [a][0] == a;
  }

  lemma LastOfPair(a: Action, b: Action, ty: ActionType)
    ensures LastOf([a, b], ty) ==
            if b.Type() == ty then Some(b) else if a.Type() == ty then Some(a) else None
  {
    assert [a, b][..1] == [a] && [a, b][1] == b;
    LastOfOne(a, ty);
  }

  lemma {:induction false} LastOfAppend(xs: seq<Action>, ys: seq<Action>, ty: ActionType)
    ensures LastOf(xs + ys, ty) == if LastOf(ys, ty).Some? then LastOf(ys, ty) else LastOf(xs, ty)
  {
    if ys == [] {
      assert xs + ys == xs;
    } else {
      var n := |ys| - 1;
      LastOfAppend(xs, ys[..n], ty);
      assert (xs + ys)[..|xs + ys| - 1] == xs + ys[..n];
    }
  }

  predicate DistinctTypes(actions: seq<Action>) {
    forall i, j :: 0 <= i < j < |actions| ==> actions[i].Type() != actions[j].Type()
  }

  /** Where no type repeats, the last action of a type is simply the one in the list. */
  lemma {:induction false} LastOfDistinct(actions: seq<Action>, a: Action)
    requires DistinctTypes(actions)
    requires a in actions
    ensures LastOf(actions, a.Type()) == Some(a)
  {
    var _ := LastOfMeaning(actions, a.Type());
  }

  /** A type and its argument identify an action. */
  lemma TypeAndArgumentDetermine(a: Action, b: Action)
    requires a.Type() == b.Type()
    requires a.Type().Carries() ==> a.Argument() == b.Argument()
    ensures a == b
  {
  }

  lemma CodesDistinct(x: ActionType, y: ActionType)
    requires x != y
    ensures x.Code() != y.Code()
  {
  }
}
