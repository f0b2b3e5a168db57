/** Compilation of an OpenFlow action list into a signature and a table of
    arguments (src/parse.c). */
module Parse {
  import opened OpenFlow
  import opened Signature

  datatype OxmField = OFPXMT_OFB_VLAN_VID

  /** A word of the argument table: an argument, or the nested table of SET_FIELD. */
  datatype Word = Value(arg: Arg) | Fields(fields: map<OxmField, Arg>)

  type ArgTable = map<ActionType, Word>

  datatype Parsed = Parsed(args: ArgTable, sig: bv32, arg: Arg)

  const EMPTY := Parsed(map[], 0, Unset)

  /** A SET_FIELD word is a nested table. */
  predicate WellFormed(args: ArgTable) {
    OFPAT_SET_FIELD in args ==> args[OFPAT_SET_FIELD].Fields?
  }

  /** The word that holds the argument of an action. */
  function WordFor(a: Action, arg: Arg): Word {
    if a.SetVlanVid? then Fields(map[OFPXMT_OFB_VLAN_VID := arg]) else Value(arg)
  }

  function ParseOne(p: Parsed, a: Action): (r: Parsed)
    requires WellFormed(p.args)
    ensures WellFormed(r.args)
  {
    var arg := if a.Type().Carries() then a.Argument() else p.arg;
    Parsed(p.args[a.Type() := WordFor(a, arg)], SetBit(p.sig, a.Type().Code()), arg)
  }

  function ParseAll(p: Parsed, actions: seq<Action>): (r: Parsed)
    requires WellFormed(p.args)
    ensures WellFormed(r.args)
  {
    if actions == [] then p
    else ParseOne(ParseAll(p, actions[..|actions| - 1]), actions[|actions| - 1])
  }

  lemma ParseAllNext(p: Parsed, actions: seq<Action>, i: nat)
    requires WellFormed(p.args) && i < |actions|
    ensures ParseAll(p, actions[..i + 1]) == ParseOne(ParseAll(p, actions[..i]), actions[i])
  {
    assert actions[..i + 1][..i] == actions[..i];
  }

  /** What compiling a list from scratch gives. */
  function Compile(actions: seq<Action>): Parsed {
    ParseAll(EMPTY, actions)
  }

  datatype Instruction =
    | GotoTable(table: bv8)
    | WriteMetadata(metadata: bv64)
    | Actions(actions: seq<Action>)  // write, apply or clear actions
    | Meter(meter: bv32)

  /** Lists whose reading is settled: empty, or led by an instruction that carries actions. */
  predicate Led(instructions: seq<Instruction>) {
    instructions == [] || instructions[0].Actions?
  }

  type InstructionList = list: seq<Instruction> | Led(list) witness []

  /** The actions of the leading instruction; an empty list, which drops packets, has none. */
  function LeadingActions(instructions: InstructionList): seq<Action> {
    if instructions == [] then [] else instructions[0].actions
  }

  /** The argument table and signature a callback passes by reference. */
  class Compilation {
    var args: ArgTable
    var sig: bv32

    constructor ()
      ensures args == map[] && sig == 0
    {
      args, sig := map[], 0;
    }

    method ParseOfpat(action: Action, arg: Arg, hdrField: OxmField)
      returns (ty: ActionType, arg': Arg, hdrField': OxmField)
      ensures ty == action.Type()
      ensures arg' == if ty.Carries() then action.Argument() else arg
      ensures hdrField' == if action.SetVlanVid? then OFPXMT_OFB_VLAN_VID else hdrField
    {
      ty, arg', hdrField' := action.Type(), arg, hdrField;
      match action
      case Output(p) => arg' := U32(p);
      case Group(g) => arg' := U32(g);
      case SetQueue(q) => arg' := U32(q);
      case SetMplsTtl(t) => arg' := U8(t);
      case SetNwTtl(t) => arg' := U8(t);
      case SetVlanVid(v) =>
        hdrField' := OFPXMT_OFB_VLAN_VID;
        arg' := U16(v);
      case _ =>
    }

    /** Inserts an argument under its type, or, for SET_FIELD, under its field in the nested table. */
    method Store(ty: ActionType, hdrField: OxmField, arg: Arg)
      requires WellFormed(args)
      modifies this`args
      ensures args == old(args)[ty := if ty.OFPAT_SET_FIELD? then Fields(map[hdrField := arg]) else Value(arg)]
    {
      if ty == OFPAT_SET_FIELD {
        if OFPAT_SET_FIELD in args {
          var pipeline := args[OFPAT_SET_FIELD].fields;
          args := args[OFPAT_SET_FIELD := Fields(pipeline[hdrField := arg])];
          assert forall f :: f in pipeline ==> f == hdrField;
          assert pipeline[hdrField := arg] == map[OFPXMT_OFB_VLAN_VID := arg];
        } else {
          args := args[OFPAT_SET_FIELD := Fields(map[hdrField := arg])];
        }
      } else {
        args := args[ty := Value(arg)];
      }
    }

    /** One iteration of parse_actions. */
    method ParseAction(action: Action, arg: Arg, hdrField: OxmField) returns (arg': Arg, hdrField': OxmField)
      requires WellFormed(args)
      modifies this
      ensures Parsed(args, sig, arg') == ParseOne(Parsed(old(args), old(sig), arg), action)
    {
      var ty;
      ty, arg', hdrField' := ParseOfpat(action, arg, hdrField);
      Store(ty, hdrField', arg');
      sig := SetBit(sig, ty.Code());
    }

    method ParseActions(actions: seq<Action>)
      requires WellFormed(args)
      modifies this
      ensures WellFormed(args)
      ensures var p := ParseAll(Parsed(old(args), old(sig), Unset), actions);
              args == p.args && sig == p.sig
    {
      var arg, hdrField, i := Unset, OFPXMT_OFB_VLAN_VID, 0;
      while i < |actions|
        invariant 0 <= i <= |actions|
        invariant WellFormed(args)
        invariant ParseAll(Parsed(old(args), old(sig), Unset), actions[..i]) == Parsed(args, sig, arg)
      {
        ParseAllNext(Parsed(old(args), old(sig), Unset), actions, i);
        arg, hdrField := ParseAction(actions[i], arg, hdrField);
        i := i + 1;
      }
      assert actions[..i] == actions;
    }

    /** The loop leaves after an instruction with actions: the rest of such a list is never read. */
    method ParseInstructions(instructions: InstructionList)
      requires WellFormed(args)
      modifies this
      ensures WellFormed(args)
      ensures var p := ParseAll(Parsed(old(args), old(sig), Unset), LeadingActions(instructions));
              args == p.args && sig == p.sig
      ensures instructions == [] ==> args == old(args) && sig == old(sig)
      ensures instructions != [] ==>
                var p := ParseAll(Parsed(old(args), old(sig), Unset), instructions[0].actions);
                args == p.args && sig == p.sig
    {
      if instructions != [] {
        ParseActions(instructions[0].actions);
      }
    }
  }

  // ----- what the fold means -----

  /** Last writer wins: the table gains exactly the types of the list, and each
      argument-carrying type ends with the argument of its last occurrence. */
  lemma {:induction false} LastWriter(p: Parsed, actions: seq<Action>, ty: ActionType)
    requires WellFormed(p.args)
    ensures var r := ParseAll(p, actions).args;
            && (ty in r <==> ty in p.args || LastOf(actions, ty).Some?)
            && match LastOf(actions, ty)
               case None => ty in p.args ==> r[ty] == p.args[ty]
               case Some(a) => ty.Carries() ==> r[ty] == WordFor(a, a.Argument())
  {
    if actions != [] {
      LastWriter(p, actions[..|actions| - 1], ty);
    }
  }

  /** The signature gains exactly the bits of the codes that occur in the list. */
  lemma {:induction false} SignatureBits(p: Parsed, actions: seq<Action>, bit: bv16)
    requires WellFormed(p.args) && bit < 32
    ensures CheckBit(ParseAll(p, actions).sig, bit) <==>
              CheckBit(p.sig, bit) || exists a :: a in actions && a.Type().Code() == bit
  {
    if actions != [] {
      var n := |actions| - 1;
      SignatureBits(p, actions[..n], bit);
      SetThenCheck(ParseAll(p, actions[..n]).sig, actions[n].Type().Code(), bit);
      assert forall a :: a in actions <==> a == actions[n] || a in actions[..n];
    }
  }

  /** From scratch, the signature and the table speak of the same types. */
  lemma {:induction false} CompiledType(actions: seq<Action>, ty: ActionType)
    ensures var r, last := Compile(actions), LastOf(actions, ty);
            && (CheckBit(r.sig, ty.Code()) <==> last.Some?)
            && (ty in r.args <==> last.Some?)
            && (last.Some? && ty.Carries() ==> r.args[ty] == WordFor(last.value, last.value.Argument()))
  {
    LastWriter(EMPTY, actions, ty);
    SignatureBits(EMPTY, actions, ty.Code());
    assert !CheckBit(0, ty.Code());
    var _ := LastOfMeaning(actions, ty);
    forall a | a in actions && a.Type().Code() == ty.Code()
      ensures a.Type() == ty
    {
      if a.Type() != ty { CodesDistinct(a.Type(), ty); }
    }
  }

  /** The same signature, and tables that agree wherever a word means something: on the types that come
      with an argument. */
  ghost predicate SameCompilation(p: Parsed, q: Parsed) {
    && p.sig == q.sig
    && forall ty: ActionType | ty.Carries() ::
         (ty in p.args <==> ty in q.args) && (ty in p.args ==> p.args[ty] == q.args[ty])
  }

  ghost predicate SameLast(xs: seq<Action>, ys: seq<Action>) {
    forall ty :: LastOf(xs, ty) == LastOf(ys, ty)
  }

  lemma SameLastSameBits(xs: seq<Action>, ys: seq<Action>, bit: bv16)
    requires bit < 32 && SameLast(xs, ys)
    ensures CheckBit(Compile(xs).sig, bit) <==> CheckBit(Compile(ys).sig, bit)
  {
    SignatureBits(EMPTY, xs, bit);
    SignatureBits(EMPTY, ys, bit);
    forall a | a in xs ensures exists b :: b in ys && b.Type() == a.Type() {
      var _ := LastOfMeaning(xs, a.Type());
      var _ := LastOfMeaning(ys, a.Type());
      assert LastOf(xs, a.Type()) == LastOf(ys, a.Type());
    }
    forall a | a in ys ensures exists b :: b in xs && b.Type() == a.Type() {
      var _ := LastOfMeaning(xs, a.Type());
      var _ := LastOfMeaning(ys, a.Type());
      assert LastOf(xs, a.Type()) == LastOf(ys, a.Type());
    }
  }

  lemma WordsDetermine(a: Action, b: Action)
    requires a.Type() == b.Type() && a.Type().Carries()
    requires WordFor(a, a.Argument()) == WordFor(b, b.Argument())
    ensures a.Argument() == b.Argument()
  {
    if a.SetVlanVid? {
      var vid := WordFor(a, a.Argument()).fields[OFPXMT_OFB_VLAN_VID];
      assert vid == WordFor(b, b.Argument()).fields[OFPXMT_OFB_VLAN_VID];
    }
  }

  lemma {:induction false} SameCompilationSameLast(xs: seq<Action>, ys: seq<Action>, ty: ActionType)
    requires SameCompilation(Compile(xs), Compile(ys))
    ensures LastOf(xs, ty) == LastOf(ys, ty)
  {
    CompiledType(xs, ty);
    CompiledType(ys, ty);
    if LastOf(xs, ty).Some? {
      var a, b := LastOf(xs, ty).value, LastOf(ys, ty).value;
      if ty.Carries() {
        WordsDetermine(a, b);
      }
      TypeAndArgumentDetermine(a, b);
    }
  }

  /** Two lists compile alike exactly when they agree on the last action of every type. */
  lemma Canonical(xs: seq<Action>, ys: seq<Action>)
    ensures SameCompilation(Compile(xs), Compile(ys)) <==> SameLast(xs, ys)
  {
    if SameLast(xs, ys) {
      forall bit: bv16 | bit < 32
        ensures CheckBit(Compile(xs).sig, bit) <==> CheckBit(Compile(ys).sig, bit)
      {
        SameLastSameBits(xs, ys, bit);
      }
      BitsDetermine(Compile(xs).sig, Compile(ys).sig);
      forall ty: ActionType | ty.Carries()
        ensures ty in Compile(xs).args <==> ty in Compile(ys).args
        ensures ty in Compile(xs).args ==> Compile(xs).args[ty] == Compile(ys).args[ty]
      {
        CompiledType(xs, ty);
        CompiledType(ys, ty);
        assert LastOf(xs, ty) == LastOf(ys, ty);
      }
    }
    if SameCompilation(Compile(xs), Compile(ys)) {
      forall ty ensures LastOf(xs, ty) == LastOf(ys, ty) {
        SameCompilationSameLast(xs, ys, ty);
      }
    }
  }

  /** Permuting a list whose types are pairwise distinct changes nothing that is compiled. */
  lemma PermutationCompilesAlike(xs: seq<Action>, ys: seq<Action>)
    requires multiset(xs) == multiset(ys)
    requires DistinctTypes(xs) && DistinctTypes(ys)
    ensures SameCompilation(Compile(xs), Compile(ys))
  {
    assert forall a :: a in xs <==> a in multiset(xs);
    assert forall a :: a in ys <==> a in multiset(ys);
    forall ty ensures LastOf(xs, ty) == LastOf(ys, ty) {
      var _ := LastOfMeaning(xs, ty);
      var _ := LastOfMeaning(ys, ty);
      if LastOf(xs, ty).Some? {
        LastOfDistinct(ys, LastOf(xs, ty).value);
      }
    }
    Canonical(xs, ys);
  }

  // ----- what is compiled, in numbers -----

  /** A message compiles the actions of its first instruction, whatever follows it. */
  lemma FirstInstruction(actions: seq<Action>, rest: seq<Instruction>)
    ensures Led([Actions(actions)] + rest)
    ensures var list: InstructionList := [Actions(actions)] + rest;
            Compile(LeadingActions(list)) == Compile(actions)
    ensures Compile(LeadingActions([])).sig == 0 && Compile(LeadingActions([])).args == map[]
  {
  }

  /** One shifted left by the number of an action's type in OpenFlow 1.3.0. */
  function Mask(a: Action): bv32 {
    match a
    case Output(_) => 0x1
    case CopyTtlOut => 0x800
    case CopyTtlIn => 0x1000
    case SetMplsTtl(_) => 0x8000
    case DecMplsTtl => 0x1_0000
    case PushVlan => 0x2_0000
    case PopVlan => 0x4_0000
    case PushMpls => 0x8_0000
    case PopMpls => 0x10_0000
    case SetQueue(_) => 0x20_0000
    case Group(_) => 0x40_0000
    case SetNwTtl(_) => 0x80_0000
    case DecNwTtl => 0x100_0000
    case SetVlanVid(_) => 0x200_0000
    case PushPbb => 0x400_0000
    case PopPbb => 0x800_0000
  }

  lemma MaskIsBit(a: Action)
    ensures Mask(a) as bv64 == (1 as bv64) << a.Type().Code()
  {
    match a
    case Output(_) =>
    case CopyTtlOut =>
    case CopyTtlIn =>
    case SetMplsTtl(_) =>
    case DecMplsTtl =>
    case PushVlan =>
    case PopVlan =>
    case PushMpls =>
    case PopMpls =>
    case SetQueue(_) =>
    case Group(_) =>
    case SetNwTtl(_) =>
    case DecNwTtl =>
    case SetVlanVid(_) =>
    case PushPbb =>
    case PopPbb =>
  }

  /** The signature of a list has the mask of an action exactly where the list has an action of its type. */
  lemma SignatureHasMask(actions: seq<Action>, a: Action)
    ensures Guard(Compile(actions).sig, Mask(a)) <==> LastOf(actions, a.Type()).Some?
  {
    CompiledType(actions, a.Type());
    MaskIsBit(a);
    GuardIsBit(Compile(actions).sig, Mask(a), a.Type().Code());
  }

  /** The word compiled for the last action of a type that comes with an argument, action by action. */
  lemma CompiledWord(actions: seq<Action>, ty: ActionType)
    ensures var args := Compile(actions).args;
            match LastOf(actions, ty)
            case None => ty !in args
            case Some(Output(port)) => OFPAT_OUTPUT in args && args[OFPAT_OUTPUT] == Value(U32(port))
            case Some(Group(group)) => OFPAT_GROUP in args && args[OFPAT_GROUP] == Value(U32(group))
            case Some(SetQueue(queue)) => OFPAT_SET_QUEUE in args && args[OFPAT_SET_QUEUE] == Value(U32(queue))
            case Some(SetMplsTtl(ttl)) => OFPAT_SET_MPLS_TTL in args && args[OFPAT_SET_MPLS_TTL] == Value(U8(ttl))
            case Some(SetNwTtl(ttl)) => OFPAT_SET_NW_TTL in args && args[OFPAT_SET_NW_TTL] == Value(U8(ttl))
            case Some(SetVlanVid(vid)) =>
              OFPAT_SET_FIELD in args && args[OFPAT_SET_FIELD] == Fields(map[OFPXMT_OFB_VLAN_VID := U16(vid)])
            case Some(_) => ty in args
  {
    CompiledType(actions, ty);
  }

  /** An action without an argument is stored with the argument that the action before it left. */
  lemma LeftoverArgument(actions: seq<Action>, port: bv32, a: Action)
    requires a.CopyTtlOut? || a.CopyTtlIn? || a.DecMplsTtl? || a.PushVlan? || a.PopVlan? || a.PushMpls?
          || a.PopMpls? || a.DecNwTtl? || a.PushPbb? || a.PopPbb?
    ensures var args := Compile(actions + [Output(port), a]).args;
            a.Type() in args && args[a.Type()] == Value(U32(port))
  {
    var init, list := actions + [Output(port)], actions + [Output(port), a];
    assert init[..|init| - 1] == actions && list[..|list| - 1] == init;
    assert Compile(init) == ParseOne(Compile(actions), Output(port));
    assert Compile(list) == ParseOne(Compile(init), a);
  }
}
