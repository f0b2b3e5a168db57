/** What becomes of a packet that hits an entry which a failed create left behind, once
    the create has been retried. */
module Leftovers {
  import opened OpenFlow
  import opened Signature
  import opened Parse
  import opened Packets
  import opened Pipeline
  import opened Compiler
  import opened Lifecycle
  import opened Runs
  import opened Accounting
  import opened Agreement

  /** The entry marks packets with the signature of the create that left it, and they meet the pipeline
      entries of the flow's latest actions. Where the signatures are the same, as after a plain retry, the
      packet runs the latest actions. */
  lemma LeftoverRunsLatestActions(cfg: Config, past: History, e: Event, run: History, loc: Loc, id: FlowId,
          target: Target, groups: GroupTables, groupId: bv32, q: Queueing, h: Headers)
    requires Leaks(cfg, After(cfg, past), e, loc, id) && Extends(Then(past, e), run)
    requires Sound(cfg, run) && Disciplined(cfg, run) && Quiet(Initial(run), groupId)
    requires Settled(cfg, run, id).Some?
    requires var load := Settled(cfg, run, id).value;
             && load.piped && LastOf(load.actions, OFPAT_GROUP).None?
             && GroupPort(groupId, OutputPort(load.actions, q.egressSpec)) !in groups.egress
             && Compile(ActionsOf(e)).sig == Compile(load.actions).sig
    ensures var s := After(cfg, run);
            && loc in s.plane.entries
            && var (q', h') := ForwardHit(target, groups, s.plane.tables, s.plane.entries[loc], groupId, q, h);
               RunsActions(target, Settled(cfg, run, id).value.actions, q, h, q', h')
  {
    AcceptEnters(cfg, After(cfg, past), e);
    LeakIsForever(cfg, Then(past, e), run, loc, id);
    BitmapAgreesWithPipeline(cfg, run);
    QuietForever(cfg, run, groupId);
    InstalledRuns(target, groups, After(cfg, run).plane.tables, id, Settled(cfg, run, id).value, groupId, q, h);
  }

  // ----- otherwise it may run something else -----

  /** The pipeline of a flow that pops a label. */
  function Popping(id: FlowId): Tables {
    map[TPopMpls := [Entry(FlowKey(id), OfpatPopMpls)]]
  }

  /** A create of the flow that succeeds, under handle 6. */
  function PoppingCreate(id: FlowId): Event {
    Create(id, 0, 0, 0, [4], [Actions([PopMpls])], true, Pd(true, 6, false), Plugin(true, Popping(id)))
  }

  /** A create without actions fails at the pipeline; then the flow is created with an action. */
  function Retried(id: FlowId): History {
    Then(Then(Start(map[]), Entering(id, 5, false)), PoppingCreate(id))
  }

  lemma PopAlone(name: TableName)
    ensures CheckBit(Compile([PopMpls]).sig, name.Type().Code()) <==> name == TPopMpls
  {
    CompiledType([PopMpls], name.Type());
    LastOfOne(PopMpls, name.Type());
  }

  lemma PoppingIsInstalled(id: FlowId)
    ensures TouchesOnly(map[], Popping(id), FlowKey(id))
    ensures Installed(Popping(id), FlowKey(id), Compile([PopMpls]).sig, Compile([PopMpls]).args)
    ensures forall groupId: bv32 :: Quiet(Popping(id), groupId)
  {
    var e := Entry(FlowKey(id), OfpatPopMpls);
    assert [e][1..] == [];
    forall name: TableName
      ensures Others(Entries(Popping(id), name), FlowKey(id)) == []
      ensures CheckBit(Compile([PopMpls]).sig, name.Type().Code()) ==>
                Own(Entries(Popping(id), name), FlowKey(id)) ==
                [Entry(FlowKey(id), Bound(name, Compile([PopMpls]).args))]
    {
      PopAlone(name);
    }
  }

  lemma PoppingSteps(id: FlowId)
    ensures var s, e := Example(NO_BOOKS, EntryOf(id, true)), PoppingCreate(id);
            var r := Step(ONE_TABLE, s, e);
            && r.error.NoError? && Answers(ONE_TABLE, s, e)
            && r.state.plane == Plane(EntryOf(id, true)[Loc(0, 6) := RuleOf(e)], map[], Popping(id))
  {
    var s, e, p := Example(NO_BOOKS, EntryOf(id, true)), PoppingCreate(id), Compile([PopMpls]);
    var calls := Step(ONE_TABLE, s, e).calls;
    OneFieldMatch();
    assert ActionsOf(e) == [PopMpls];
    assert calls == [AddEntry(0, id, p.sig, p.args, e.pd), PipelineAdd(FlowKey(id), p.sig, p.args, e.plugin)];
    assert calls[1..] == [PipelineAdd(FlowKey(id), p.sig, p.args, e.plugin)];
    assert calls[1..][1..] == [];
    PoppingIsInstalled(id);
  }

  lemma RetriedRuns(id: FlowId)
    ensures var h := Retried(id);
            && After(ONE_TABLE, h.past) == Example(NO_BOOKS, EntryOf(id, true))
            && Sound(ONE_TABLE, h) && Disciplined(ONE_TABLE, h)
            && Leaked(ONE_TABLE, h, Loc(0, 5), id)
            && Settled(ONE_TABLE, h, id) == Some(Load([PopMpls], true))
  {
    var h := Retried(id);
    EnteringSteps(NO_BOOKS, id, false);
    assert After(ONE_TABLE, h.past.past) == Example(NO_BOOKS, map[]);
    PoppingSteps(id);
    assert Holder(ONE_TABLE, h.past, Index(id)) == Some(id);
  }

  /** A packet that hits the entry left behind keeps its label, where the flow's latest actions pop it. */
  lemma LeftoverRunsStaleActions(id: FlowId, target: Target, h: Headers)
    requires h.mpls != []
    ensures var run, groups, q := Retried(id), GroupTables(map[], map[]), Queueing(0, 0);
            && Sound(ONE_TABLE, run) && Disciplined(ONE_TABLE, run)
            && Leaked(ONE_TABLE, run, Loc(0, 5), id)
            && Settled(ONE_TABLE, run, id) == Some(Load([PopMpls], true))
            && var plane := After(ONE_TABLE, run).plane;
               && Loc(0, 5) in plane.entries && Loc(0, 6) in plane.entries
               && ForwardHit(target, groups, plane.tables, plane.entries[Loc(0, 5)], 0, q, h) == (q, h)
               && ForwardHit(target, groups, plane.tables, plane.entries[Loc(0, 6)], 0, q, h) ==
                  (q, h.(mpls := h.mpls[1..]))
  {
    var groups, q := GroupTables(map[], map[]), Queueing(0, 0);
    RetriedRuns(id);
    PoppingSteps(id);
    PoppingIsInstalled(id);
    NothingRuns(target, groups, Popping(id), id, q, h);
    PopRuns(target, groups, Popping(id), id, q, h);
  }

  lemma NothingRuns(target: Target, groups: GroupTables, tables: Tables, id: FlowId, q: Queueing, h: Headers)
    requires Quiet(tables, 0) && groups.egress == map[]
    ensures ForwardHit(target, groups, tables, Rule(id, 0, map[], true), 0, q, h) == (q, h)
  {
    assert Compile([]) == EMPTY;
    InstalledRuns(target, groups, tables, id, Load([], true), 0, q, h);
  }

  lemma PopOnly(target: Target, h: Headers, port: bv32)
    requires h.mpls != []
    ensures RunInPipelineOrder(target, [PopMpls], h) == h.(mpls := h.mpls[1..])
    ensures OutputPort([PopMpls], port) == port && LastOf([PopMpls], OFPAT_GROUP).None?
  {
    forall ty: ActionType
      ensures LastOf([PopMpls], ty) == if ty == OFPAT_POP_MPLS then Some(PopMpls) else None
    {
      LastOfOne(PopMpls, ty);
    }
  }

  lemma PopRuns(target: Target, groups: GroupTables, tables: Tables, id: FlowId, q: Queueing, h: Headers)
    requires Quiet(tables, 0) && groups.egress == map[] && h.mpls != []
    requires PipelineAgrees(tables, id, Load([PopMpls], true))
    ensures ForwardHit(target, groups, tables, RuleFor(id, Load([PopMpls], true)), 0, q, h) ==
            (q, h.(mpls := h.mpls[1..]))
  {
    PopOnly(target, h, q.egressSpec);
    InstalledRuns(target, groups, tables, id, Load([PopMpls], true), 0, q, h);
  }
}
