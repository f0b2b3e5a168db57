/** The flow callbacks (src/callbacks.c) over the agent's two bookkeeping maps
    (src/state.c).  The data plane answers through generated functions; each
    event carries the answers its callback would be given. */
module Lifecycle {
  import opened OpenFlow
  import opened Signature
  import opened Parse
  import opened Pipeline
  import opened Compiler

  type TableId = x: int | 0 <= x < 0x100
  type Handle = x: int | 0 <= x < 0x1_0000_0000

  /** Where a table entry lives: its table, and the handle the table gave it. */
  datatype Loc = Loc(table: TableId, handle: Handle)

  /** What a table entry was given: a flow, a signature and arguments. It marks packets for the
      pipeline unless the table signalled, when it took the entry, that it needs none. */
  datatype Rule = Rule(flow: FlowId, sig: bv32, args: ArgTable, piped: bool)

  datatype Plane = Plane(entries: map<Loc, Rule>, defaults: map<TableId, Rule>, tables: Tables)

  /** The tables for which a function of each kind was registered at start-up. */
  datatype Config = Config(add: set<TableId>, mod: set<TableId>, def: set<TableId>, del: set<TableId>)

  datatype State = State(handles: map<FlowId, Handle>, tableIds: map<FlowId, TableId>, plane: Plane)

  /** The answer of a table function. */
  datatype Pd = Pd(ok: bool, handle: Handle, noPipeline: bool)

  /** The answer of a pipeline function, and the tables it leaves, also where it fails half-way. */
  datatype Plugin = Plugin(ok: bool, tables: Tables)

  /** A message, with the answers to the calls it may lead to. */
  datatype Event =
    | Create(flowId: FlowId, cookie: bv64, cookieMask: bv64, tableId: TableId, oxms: seq<nat>,
             instructions: InstructionList, matchOk: bool, pd: Pd, plugin: Plugin)
    | Modify(flow: FlowId, tableId: TableId, instructions: InstructionList, pd: Pd, plugin: Plugin)
    | Delete(flow: FlowId, pd: Pd, plugin: Plugin)

  datatype Error = NoError | BadMatch | BadTableId | NotFound | Unknown

  /** A call on the data plane: what the agent passes, then what it is answered. */
  datatype Call =
    | AddEntry(table: TableId, flow: FlowId, sig: bv32, args: ArgTable, pd: Pd)
    | SetDefault(table: TableId, flow: FlowId, sig: bv32, args: ArgTable, pd: Pd)
    | ModifyEntry(loc: Loc, flow: FlowId, sig: bv32, args: ArgTable, pd: Pd)
    | DeleteEntry(loc: Loc, pd: Pd)
    | PipelineAdd(key: Key, sig: bv32, args: ArgTable, plugin: Plugin)
    | PipelineMod(key: Key, sig: bv32, args: ArgTable, plugin: Plugin)
    | PipelineDel(key: Key, plugin: Plugin)

  /** What a call leaves in the data plane. */
  function Respond(plane: Plane, c: Call): Plane {
    match c
    case AddEntry(table, flow, sig, args, pd) =>
      if pd.ok
      then plane.(entries := plane.entries[Loc(table, pd.handle) := Rule(flow, sig, args, !pd.noPipeline)])
      else plane
    case SetDefault(table, flow, sig, args, pd) =>
      if pd.ok then plane.(defaults := plane.defaults[table := Rule(flow, sig, args, !pd.noPipeline)]) else plane
    case ModifyEntry(loc, flow, sig, args, pd) =>
      if pd.ok && loc in plane.entries
      then plane.(entries := plane.entries[loc := Rule(flow, sig, args, !pd.noPipeline)])
      else plane
    case DeleteEntry(loc, pd) => if pd.ok then plane.(entries := plane.entries - {loc}) else plane
    case PipelineAdd(_, _, _, plugin) => plane.(tables := plugin.tables)
    case PipelineMod(_, _, _, plugin) => plane.(tables := plugin.tables)
    case PipelineDel(_, plugin) => plane.(tables := plugin.tables)
  }

  datatype Outcome = Outcome(state: State, error: Error, calls: seq<Call>)

  /** The bytes of a list of OXM fields, given the lengths of their values. */
  function OxmBytes(oxms: seq<nat>): nat {
    if oxms == [] then 0 else 4 + oxms[0] + OxmBytes(oxms[1..])
  }

  /** The padded length of an ofp_match holding the fields. */
  function MatchBytes(oxms: seq<nat>): nat {
    (4 + OxmBytes(oxms) + 7) / 8 * 8
  }

  const SIZEOF_OFP_MATCH := 8

  /** The length test of flow_create finds exactly the matches without fields, and, beyond those,
      the one malformed match whose single field has no value. */
  lemma DefaultTest(oxms: seq<nat>)
    ensures MatchBytes(oxms) == SIZEOF_OFP_MATCH <==> oxms == [] || oxms == [0]
    ensures (forall n :: n in oxms ==> n > 0) ==> (MatchBytes(oxms) == SIZEOF_OFP_MATCH <==> oxms == [])
  {
    if |oxms| >= 2 {
      assert OxmBytes(oxms) >= 8;
    } else if |oxms| == 1 {
      assert OxmBytes(oxms) == 4 + oxms[0] && oxms[0] in oxms;
    }
  }

  /** The id a flow goes by: its cookie takes over when a mask is given. */
  function EffectiveId(e: Event): FlowId {
    match e
    case Create(id, cookie, mask, _, _, _, _, _, _) => if mask != 0 then FlowId(cookie | mask) else id
    case Modify(id, _, _, _, _) => id
    case Delete(id, _, _) => id
  }

  /** The id of a create is the message's own, or, where there is a mask, the bits of cookie and mask. */
  ghost predicate IsIdOf(id: FlowId, e: Event)
    requires e.Create?
  {
    if e.cookieMask == 0 then id == e.flowId else Unites(id.bits, e.cookie, e.cookieMask)
  }

  lemma EffectiveIdIsId(e: Event)
    requires e.Create?
    ensures IsIdOf(EffectiveId(e), e)
  {
    OrUnites(e.cookie, e.cookieMask);
  }

  /** The actions a message carries. */
  function ActionsOf(e: Event): seq<Action>
    requires !e.Delete?
  {
    LeadingActions(e.instructions)
  }

  /** Whether a create takes the set-default path. */
  predicate IsDefault(e: Event)
    requires e.Create?
  {
    MatchBytes(e.oxms) == SIZEOF_OFP_MATCH
  }

  // ----- the callbacks as functions of the state -----

  /** The outcome of a call, and then of what the callback does next. */
  function Prepend(c: Call, r: Outcome): Outcome {
    r.(calls := [c] + r.calls)
  }

  /** The tail of flow_create, once the table has taken the entry: pipeline entries, then bookkeeping. */
  function FinishCreate(s: State, e: Event, sig: bv32, args: ArgTable): Outcome
    requires e.Create?
  {
    var id := EffectiveId(e);
    var s' := s.(handles := s.handles[id := e.pd.handle], tableIds := s.tableIds[id := e.tableId]);
    if e.pd.noPipeline then Outcome(s', NoError, [])
    else
      var c := PipelineAdd(FlowKey(id), sig, args, e.plugin);
      var r := if e.plugin.ok then s' else s;
      Outcome(r.(plane := Respond(r.plane, c)), if e.plugin.ok then NoError else Unknown, [c])
  }

  /** The call with which a create enters its table. */
  function EnterCall(e: Event, sig: bv32, args: ArgTable): Call
    requires e.Create?
  {
    if IsDefault(e) then SetDefault(e.tableId, EffectiveId(e), sig, args, e.pd)
    else AddEntry(e.tableId, EffectiveId(e), sig, args, e.pd)
  }

  /** The part of flow_create up to the table's answer. */
  function Enter(cfg: Config, s: State, e: Event, sig: bv32, args: ArgTable): Outcome
    requires e.Create?
  {
    if !IsDefault(e) && !e.matchOk then Outcome(s, BadMatch, [])
    else if e.tableId !in (if IsDefault(e) then cfg.def else cfg.add) then Outcome(s, BadTableId, [])
    else
      var c := EnterCall(e, sig, args);
      Outcome(s.(plane := Respond(s.plane, c)), if e.pd.ok then NoError else Unknown, [c])
  }

  function StepCreate(cfg: Config, s: State, e: Event): Outcome
    requires e.Create?
  {
    var p := Compile(ActionsOf(e));
    var r := Enter(cfg, s, e, p.sig, p.args);
    if r.error.NoError? then
      var finish := FinishCreate(r.state, e, p.sig, p.args);
      finish.(calls := r.calls + finish.calls)
    else r
  }

  /** The tail of flow_modify, once the table has taken the change. */
  function FinishModify(s: State, e: Event, sig: bv32, args: ArgTable): Outcome
    requires e.Modify?
  {
    if e.pd.noPipeline then Outcome(s, NoError, [])
    else
      var c := PipelineMod(FlowKey(e.flow), sig, args, e.plugin);
      Outcome(s.(plane := Respond(s.plane, c)), if e.plugin.ok then NoError else Unknown, [c])
  }

  function StepModify(cfg: Config, s: State, e: Event): Outcome
    requires e.Modify?
  {
    var p := Compile(ActionsOf(e));
    if e.flow !in s.handles || e.flow !in s.tableIds then Outcome(s, NotFound, [])
    else if s.tableIds[e.flow] !in cfg.mod then Outcome(s, BadTableId, [])
    else
      var c := ModifyEntry(Where(s, e.flow), e.flow, p.sig, p.args, e.pd);
      var s := s.(plane := Respond(s.plane, c));
      Prepend(c, if e.pd.ok then FinishModify(s, e, p.sig, p.args) else Outcome(s, Unknown, []))
  }

  /** The tail of flow_delete, once the table has dropped the entry. */
  function FinishDelete(s: State, e: Event): Outcome
    requires e.Delete?
  {
    var c := PipelineDel(FlowKey(e.flow), e.plugin);
    Outcome(s.(plane := Respond(s.plane, c)), if e.plugin.ok then NoError else Unknown, [c])
  }

  function StepDelete(cfg: Config, s: State, e: Event): Outcome
    requires e.Delete?
  {
    if e.flow !in s.handles || e.flow !in s.tableIds then Outcome(s, NotFound, [])
    else if s.tableIds[e.flow] !in cfg.del then Outcome(s, BadTableId, [])
    else
      var c := DeleteEntry(Where(s, e.flow), e.pd);
      var s := s.(plane := Respond(s.plane, c));
      Prepend(c, if e.pd.ok then FinishDelete(s, e) else Outcome(s, Unknown, []))
  }

  /** Where the books say a flow's entry is. */
  function Where(s: State, id: FlowId): Loc
    requires id in s.handles && id in s.tableIds
  {
    Loc(s.tableIds[id], s.handles[id])
  }

  function Step(cfg: Config, s: State, e: Event): Outcome {
    match e
    case Create(_, _, _, _, _, _, _, _, _) => StepCreate(cfg, s, e)
    case Modify(_, _, _, _, _) => StepModify(cfg, s, e)
    case Delete(_, _, _) => StepDelete(cfg, s, e)
  }

  // ----- runs -----

  /** The events of a run, the latest outermost. */
  datatype History = Start(tables: Tables) | Then(past: History, event: Event)

  function After(cfg: Config, h: History): State {
    match h
    case Start(tables) => State(map[], map[], Plane(map[], map[], tables))
    case Then(past, e) => Step(cfg, After(cfg, past), e).state
  }

  /** Every call a run makes on the data plane, in order. */
  function CallsOf(cfg: Config, h: History): seq<Call> {
    match h
    case Start(_) => []
    case Then(past, e) => CallsOf(cfg, past) + Step(cfg, After(cfg, past), e).calls
  }

  // ----- the callbacks as the agent runs them -----

  class Agent {
    const cfg: Config
    var handles: map<FlowId, Handle>   // flow_id_to_entry_hdl
    var tableIds: map<FlowId, TableId> // flow_id_to_table_id
    ghost var plane: Plane             // the data plane on the other side of the calls
    ghost var log: seq<Call>           // the calls made on it
    ghost var history: History         // the messages received

    ghost function Abstract(): State
      reads this
    {
      State(handles, tableIds, plane)
    }

    /** The agent is where its run takes it. */
    ghost predicate Valid()
      reads this
    {
      Abstract() == After(cfg, history) && log == CallsOf(cfg, history)
    }

    constructor (cfg: Config, ghost tables: Tables)
      ensures this.cfg == cfg && Valid() && history == Start(tables)
    {
      this.cfg := cfg;
      handles, tableIds := map[], map[];
      plane := Plane(map[], map[], tables);
      log, history := [], Start(tables);
    }

    ghost method Issue(c: Call)
      modifies this`plane, this`log
      ensures plane == Respond(old(plane), c) && log == old(log) + [c]
    {
      plane := Respond(plane, c);
      log := log + [c];
    }

    method ChooseFlowId(e: Event) returns (flowId: FlowId)
      requires e.Create?
      ensures flowId == EffectiveId(e)
    {
      flowId := e.flowId;
      if e.cookieMask != 0 {
        flowId := FlowId(e.cookie | e.cookieMask);
      }
    }

    /** What a callback parses out of its message, and then passes on. */
    method ParseMessage(instructions: InstructionList) returns (sig: bv32, args: ArgTable)
      ensures var p := Compile(LeadingActions(instructions));
              sig == p.sig && args == p.args
      ensures instructions == [] ==> sig == 0 && args == map[]
      ensures instructions != [] ==> var p := Compile(instructions[0].actions); sig == p.sig && args == p.args
    {
      var ac := new Compilation();
      ac.ParseInstructions(instructions);
      sig, args := ac.sig, ac.args;
    }

    /** The key of a flow's pipeline entries: it matches the packets of the flow's index, and no others. */
    method NewPipelineKey(flowId: FlowId) returns (key: Key)
      ensures key == FlowKey(flowId)
      ensures forall index, groupId, port :: key.Matches(index, groupId, port) <==> index == Index(flowId)
    {
      key := FlowKey(flowId);
    }

    method EnterTable(e: Event, flowId: FlowId, sig: bv32, args: ArgTable) returns (error: Error)
      requires e.Create? && flowId == EffectiveId(e)
      modifies this`plane, this`log
      ensures var r := Enter(cfg, old(Abstract()), e, sig, args);
              Abstract() == r.state && error == r.error && log == old(log) + r.calls
    {
      if MatchBytes(e.oxms) != SIZEOF_OFP_MATCH {
        if !e.matchOk {
          return BadMatch;
        }
        if e.tableId !in cfg.add {
          return BadTableId;
        }
        Issue(AddEntry(e.tableId, flowId, sig, args, e.pd));
      } else {
        if e.tableId !in cfg.def {
          return BadTableId;
        }
        Issue(SetDefault(e.tableId, flowId, sig, args, e.pd));
      }
      error := if e.pd.ok then NoError else Unknown;
    }

    /** The part of flow_create that follows the table's answer. */
    method AddPipeline(e: Event, flowId: FlowId, sig: bv32, args: ArgTable) returns (error: Error)
      requires e.Create? && flowId == EffectiveId(e)
      modifies this`handles, this`tableIds, this`plane, this`log
      ensures var r := FinishCreate(old(Abstract()), e, sig, args);
              Abstract() == r.state && error == r.error && log == old(log) + r.calls
    {
      if !e.pd.noPipeline {
        var key := NewPipelineKey(flowId);
        Issue(PipelineAdd(key, sig, args, e.plugin));
        if !e.plugin.ok {
          return Unknown;
        }
      }
      handles := handles[flowId := e.pd.handle];
      tableIds := tableIds[flowId := e.tableId];
      error := NoError;
    }

    method FlowCreate(e: Event) returns (error: Error, entryPriv: FlowId)
      requires Valid() && e.Create?
      modifies this
      ensures Valid() && history == Then(old(history), e)
      ensures error == Step(cfg, old(Abstract()), e).error && entryPriv == EffectiveId(e) && IsIdOf(entryPriv, e)
    {
      history := Then(history, e);
      var flowId := ChooseFlowId(e);
      entryPriv := flowId;
      EffectiveIdIsId(e);
      var actionSig, ac := ParseMessage(e.instructions);
      error := EnterTable(e, flowId, actionSig, ac);
      if error.NoError? {
        error := AddPipeline(e, flowId, actionSig, ac);
      }
    }

    method FlowModify(e: Event) returns (error: Error)
      requires Valid() && e.Modify?
      modifies this
      ensures Valid() && history == Then(old(history), e)
      ensures error == Step(cfg, old(Abstract()), e).error
    {
      history := Then(history, e);
      var actionSig, ac := ParseMessage(e.instructions);
      if e.flow !in handles || e.flow !in tableIds {
        return NotFound;
      }
      var eh, tid := handles[e.flow], tableIds[e.flow];
      if tid !in cfg.mod {
        return BadTableId;
      }
      Issue(ModifyEntry(Loc(tid, eh), e.flow, actionSig, ac, e.pd));
      if !e.pd.ok {
        return Unknown;
      }
      if !e.pd.noPipeline {
        var key := NewPipelineKey(e.flow);
        Issue(PipelineMod(key, actionSig, ac, e.plugin));
        if !e.plugin.ok {
          return Unknown;
        }
      }
      error := NoError;
    }

    method FlowDelete(e: Event) returns (error: Error)
      requires Valid() && e.Delete?
      modifies this
      ensures Valid() && history == Then(old(history), e)
      ensures error == Step(cfg, old(Abstract()), e).error
    {
      history := Then(history, e);
      if e.flow !in handles || e.flow !in tableIds {
        return NotFound;
      }
      var eh, tid := handles[e.flow], tableIds[e.flow];
      if tid !in cfg.del {
        return BadTableId;
      }
      Issue(DeleteEntry(Loc(tid, eh), e.pd));
      if !e.pd.ok {
        return Unknown;
      }
      var key := NewPipelineKey(e.flow);
      Issue(PipelineDel(key, e.plugin));
      if !e.plugin.ok {
        return Unknown;
      }
      error := NoError;
    }
  }
}
