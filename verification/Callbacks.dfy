/** The flow callbacks decided path by path: which call is made with what, which error is
    returned and what is booked, for every message in every state (src/callbacks.c). */
module Callbacks {
  import opened OpenFlow
  import opened Parse
  import opened Pipeline
  import opened Compiler
  import opened Lifecycle

  /** What the first instruction of a message compiles to. */
  predicate Compiled(instructions: InstructionList, sig: bv32, args: ArgTable) {
    if instructions == [] then sig == 0 && args == map[]
    else sig == Compile(instructions[0].actions).sig && args == Compile(instructions[0].actions).args
  }

  lemma WhatIsCompiled(e: Event)
    requires !e.Delete?
    ensures Compiled(e.instructions, Compile(ActionsOf(e)).sig, Compile(ActionsOf(e)).args)
  {
  }

  /** A create sets a default exactly when its match has no field, or one field without a value. */
  lemma WhichPath(e: Event)
    requires e.Create?
    ensures IsDefault(e) <==> e.oxms == [] || e.oxms == [0]
  {
    DefaultTest(e.oxms);
  }

  /** The key of a flow: the low word of its id, and nothing else. */
  predicate KeyOf(key: Key, id: FlowId) {
    key == Key(Some((id.bits & 0xffff_ffff) as bv32), None, None)
  }

  /** A create that is refused before it reaches a table makes no call and changes nothing: for a match that cannot
      be read, or for a table without the function that its match asks for. */
  lemma CreateRefused(cfg: Config, s: State, e: Event)
    requires e.Create?
    ensures var default := e.oxms == [] || e.oxms == [0];
            var r := Step(cfg, s, e);
            && (r.error.BadMatch? <==> !default && !e.matchOk)
            && (r.error.BadTableId? <==>
                  if default then e.tableId !in cfg.def else e.matchOk && e.tableId !in cfg.add)
            && (r.error.BadMatch? || r.error.BadTableId? ==> r.state == s && r.calls == [])
            && !r.error.NotFound?
  {
    WhichPath(e);
  }

  /** Every other create calls its table with the id, the signature and the arguments; once the table has taken
      it, and unless the table signals otherwise, the pipeline with the key of that id and the same signature and
      arguments. It succeeds exactly when all its calls do, and is booked exactly then, with the handle and the
      table's id. */
  lemma CreateGoesOn(cfg: Config, s: State, e: Event) returns (id: FlowId, sig: bv32, args: ArgTable, key: Key)
    requires e.Create? && !Step(cfg, s, e).error.BadMatch? && !Step(cfg, s, e).error.BadTableId?
    ensures IsIdOf(id, e) && KeyOf(key, id) && Compiled(e.instructions, sig, args)
    ensures var r, default := Step(cfg, s, e), e.oxms == [] || e.oxms == [0];
            var enter := if default then SetDefault(e.tableId, id, sig, args, e.pd)
                         else AddEntry(e.tableId, id, sig, args, e.pd);
            && r.calls == (if e.pd.ok && !e.pd.noPipeline then [enter, PipelineAdd(key, sig, args, e.plugin)]
                           else [enter])
            && r.error == (if e.pd.ok && (e.pd.noPipeline || e.plugin.ok) then NoError else Unknown)
            && r.state.handles == (if r.error.NoError? then s.handles[id := e.pd.handle] else s.handles)
            && r.state.tableIds == (if r.error.NoError? then s.tableIds[id := e.tableId] else s.tableIds)
  {
    id, key := EffectiveId(e), FlowKey(EffectiveId(e));
    sig, args := Compile(ActionsOf(e)).sig, Compile(ActionsOf(e)).args;
    EffectiveIdIsId(e);
    WhatIsCompiled(e);
    WhichPath(e);
    CreateRefused(cfg, s, e);
  }

  /** A modify needs its flow in both maps and a function for the table booked, whatever table the message
      names; it changes the entry booked, then the pipeline, and no map. */
  lemma ModifyDecides(cfg: Config, s: State, e: Event) returns (sig: bv32, args: ArgTable, key: Key)
    requires e.Modify?
    ensures KeyOf(key, e.flow) && Compiled(e.instructions, sig, args)
    ensures var r := Step(cfg, s, e);
            && r.state.handles == s.handles && r.state.tableIds == s.tableIds
            && if e.flow !in s.handles || e.flow !in s.tableIds then r == Outcome(s, NotFound, [])
               else if s.tableIds[e.flow] !in cfg.mod then r == Outcome(s, BadTableId, [])
               else
                 var change := ModifyEntry(Loc(s.tableIds[e.flow], s.handles[e.flow]), e.flow, sig, args, e.pd);
                 && r.calls == (if e.pd.ok && !e.pd.noPipeline then [change, PipelineMod(key, sig, args, e.plugin)]
                                else [change])
                 && r.error == (if e.pd.ok && (e.pd.noPipeline || e.plugin.ok) then NoError else Unknown)
  {
    key := FlowKey(e.flow);
    sig, args := Compile(ActionsOf(e)).sig, Compile(ActionsOf(e)).args;
    WhatIsCompiled(e);
  }

  /** A delete asks for the same, deletes the entry booked and then, whatever the table once signalled, the
      pipeline entries; the maps keep the flow. */
  lemma DeleteDecides(cfg: Config, s: State, e: Event) returns (key: Key)
    requires e.Delete?
    ensures KeyOf(key, e.flow)
    ensures var r := Step(cfg, s, e);
            && r.state.handles == s.handles && r.state.tableIds == s.tableIds
            && if e.flow !in s.handles || e.flow !in s.tableIds then r == Outcome(s, NotFound, [])
               else if s.tableIds[e.flow] !in cfg.del then r == Outcome(s, BadTableId, [])
               else
                 var drop := DeleteEntry(Loc(s.tableIds[e.flow], s.handles[e.flow]), e.pd);
                 && r.calls == (if e.pd.ok then [drop, PipelineDel(key, e.plugin)] else [drop])
                 && r.error == (if e.pd.ok && e.plugin.ok then NoError else Unknown)
  {
    key := FlowKey(e.flow);
  }
}
