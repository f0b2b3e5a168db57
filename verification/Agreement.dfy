/** Table entries, defaults and pipeline agree, over every disciplined run in which
    the data plane honours the calls made on it; so packets run the latest actions of
    their flow. */
module Agreement {
  import opened OpenFlow
  import opened Parse
  import opened Packets
  import opened Pipeline
  import opened Compiler
  import opened Lifecycle
  import opened Runs
  import opened Accounting

  /** What a flow should be doing: the actions of the latest create or modify that its table took, and
      whether they run in the pipeline. */
  datatype Load = Load(actions: seq<Action>, piped: bool)

  function RuleFor(id: FlowId, load: Load): Rule {
    Rule(id, Compile(load.actions).sig, Compile(load.actions).args, load.piped)
  }

  /** A create or modify of the flow that its table took and that then failed at the pipeline. */
  predicate HalfDone(cfg: Config, s: State, e: Event) {
    !e.Delete? && e.pd.ok && Step(cfg, s, e).error.Unknown?
  }

  /** None where there was no such create or modify, where it failed at the pipeline, or where the entry has
      been deleted since. */
  function Settled(cfg: Config, h: History, id: FlowId): Option<Load> {
    match h
    case Start(_) => None
    case Then(past, e) =>
      var s := After(cfg, past);
      if !e.Delete? && EffectiveId(e) == id && Step(cfg, s, e).error.NoError? then
        Some(Load(ActionsOf(e), !e.pd.noPipeline))
      else if EffectiveId(e) == id && HalfDone(cfg, s, e) then None
      else if DeletesEntry(cfg, s, e, id) then None
      else Settled(cfg, past, id)
  }

  ghost predicate PipelineAgrees(tables: Tables, id: FlowId, load: Load) {
    load.piped ==>
      Installed(tables, FlowKey(id), Compile(load.actions).sig, Compile(load.actions).args)
  }

  /** The flow is live or set a default; its entry, where the books say, was given the load's signature and
      arguments, and its pipeline entries are those of the same signature and arguments. */
  ghost predicate Agrees(cfg: Config, h: History, id: FlowId, load: Load) {
    var s := After(cfg, h);
    && (Live(cfg, h, id) || DefaultFlow(cfg, h, id))
    && (Live(cfg, h, id) ==> Where(s, id) in s.plane.entries && s.plane.entries[Where(s, id)] == RuleFor(id, load))
    && PipelineAgrees(s.plane.tables, id, load)
  }

  ghost predicate SettledAgree(cfg: Config, h: History) {
    forall id :: Settled(cfg, h, id).Some? ==> Agrees(cfg, h, id, Settled(cfg, h, id).value)
  }

  // ----- one event and the pipeline -----

  predicate OnPipeline(c: Call) {
    c.PipelineAdd? || c.PipelineMod? || c.PipelineDel?
  }

  /** A pipeline call follows a table call of its kind, and passes on what that call was given. */
  predicate Follows(before: Call, c: Call) {
    match c
    case PipelineAdd(_, sig, args, _) =>
      (before.AddEntry? || before.SetDefault?) && before.sig == sig && before.args == args
    case PipelineMod(_, sig, args, _) => before.ModifyEntry? && before.sig == sig && before.args == args
    case PipelineDel(_, _) => before.DeleteEntry?
    case _ => false
  }

  /** At most a table call and a pipeline call, the latter under the flow's own key. */
  predicate CallsMatch(calls: seq<Call>, id: FlowId) {
    && |calls| <= 2
    && (|calls| >= 1 ==> !OnPipeline(calls[0]))
    && (|calls| == 2 ==> Follows(calls[0], calls[1]) && calls[1].key == FlowKey(id))
  }

  lemma CreateCallsMatch(cfg: Config, s: State, e: Event)
    requires e.Create?
    ensures CallsMatch(Step(cfg, s, e).calls, EffectiveId(e))
  {
  }

  lemma ModifyCallsMatch(cfg: Config, s: State, e: Event)
    requires e.Modify?
    ensures CallsMatch(Step(cfg, s, e).calls, e.flow)
  {
  }

  /** Every callback hands to the pipeline what it handed to the table, under the key of its flow. */
  lemma PipelineCallsMatch(cfg: Config, s: State, e: Event)
    ensures CallsMatch(Step(cfg, s, e).calls, EffectiveId(e))
  {
    match e
    case Create(_, _, _, _, _, _, _, _, _) => CreateCallsMatch(cfg, s, e);
    case Modify(_, _, _, _, _) => ModifyCallsMatch(cfg, s, e);
    case Delete(_, _, _) =>
  }

  lemma CallTouches(plane: Plane, c: Call, key: Key)
    requires Honours(plane, c) && (OnPipeline(c) ==> c.key == key)
    ensures TouchesOnly(plane.tables, Respond(plane, c).tables, key)
  {
  }

  /** A callback that is honoured touches the pipeline entries of its own flow alone. */
  lemma StepTouches(cfg: Config, s: State, e: Event)
    requires Answers(cfg, s, e)
    ensures TouchesOnly(s.plane.tables, Step(cfg, s, e).state.plane.tables, FlowKey(EffectiveId(e)))
  {
    var calls := Step(cfg, s, e).calls;
    StepIsItsCalls(cfg, s, e);
    PipelineCallsMatch(cfg, s, e);
    CallsTouch(s.plane, calls, FlowKey(EffectiveId(e)));
  }

  lemma {:induction false} CallsTouch(plane: Plane, calls: seq<Call>, key: Key)
    requires AllHonoured(plane, calls) && forall c :: c in calls && OnPipeline(c) ==> c.key == key
    ensures TouchesOnly(plane.tables, Responses(plane, calls).tables, key)
    decreases calls
  {
    if calls != [] {
      CallTouches(plane, calls[0], key);
      CallsTouch(Respond(plane, calls[0]), calls[1..], key);
    }
  }

  lemma StepLeavesOwn(cfg: Config, s: State, e: Event, id: FlowId, name: TableName)
    requires Answers(cfg, s, e) && Index(EffectiveId(e)) != Index(id)
    ensures Own(Entries(Step(cfg, s, e).state.plane.tables, name), FlowKey(id)) ==
            Own(Entries(s.plane.tables, name), FlowKey(id))
  {
    StepTouches(cfg, s, e);
    Isolation(s.plane.tables, Step(cfg, s, e).state.plane.tables, EffectiveId(e), id, name, 0, 0);
  }

  lemma StepLeavesPipeline(cfg: Config, s: State, e: Event, id: FlowId, load: Load)
    requires Answers(cfg, s, e) && Index(EffectiveId(e)) != Index(id) && PipelineAgrees(s.plane.tables, id, load)
    ensures PipelineAgrees(Step(cfg, s, e).state.plane.tables, id, load)
  {
    forall name: TableName {
      StepLeavesOwn(cfg, s, e, id, name);
    }
  }

  /** Unless something it calls takes the change, a callback changes nothing. */
  lemma IdleStep(cfg: Config, s: State, e: Event)
    requires !Accepts(cfg, s, e) && !DeletesEntry(cfg, s, e, EffectiveId(e))
    requires e.Modify? ==> !OnBooks(s, e.flow)
    ensures Step(cfg, s, e).state == s
  {
  }

  /** An event that acts on another flow than the holder of an index has another index. */
  lemma ActsElsewhere(cfg: Config, past: History, e: Event, id: FlowId)
    requires Next(cfg, past, e) && Holder(cfg, past, Index(id)) == Some(id) && EffectiveId(e) != id
    ensures Index(EffectiveId(e)) != Index(id) || Step(cfg, After(cfg, past), e).state == After(cfg, past)
  {
    if !e.Create? {
      if OnBooks(After(cfg, past), e.flow) {
        ActorIsLive(cfg, past, e);
      } else {
        IdleStep(cfg, After(cfg, past), e);
      }
    }
  }

  lemma PipedCreateCalls(cfg: Config, s: State, e: Event)
    requires e.Create? && Step(cfg, s, e).error.NoError? && !e.pd.noPipeline
    ensures var p, calls := Compile(ActionsOf(e)), Step(cfg, s, e).calls;
            |calls| == 2 && calls[1] == PipelineAdd(FlowKey(EffectiveId(e)), p.sig, p.args, e.plugin) && e.plugin.ok
  {
  }

  lemma PipedModifyCalls(cfg: Config, s: State, e: Event)
    requires e.Modify? && Step(cfg, s, e).error.NoError? && !e.pd.noPipeline
    ensures var p, calls := Compile(ActionsOf(e)), Step(cfg, s, e).calls;
            |calls| == 2 && calls[1] == PipelineMod(FlowKey(e.flow), p.sig, p.args, e.plugin) && e.plugin.ok
  {
  }

  lemma StepInstalls(cfg: Config, s: State, e: Event)
    requires Answers(cfg, s, e)
    requires !e.Delete? && Step(cfg, s, e).error.NoError?
    ensures PipelineAgrees(Step(cfg, s, e).state.plane.tables, EffectiveId(e), Load(ActionsOf(e), !e.pd.noPipeline))
  {
    if !e.pd.noPipeline {
      var calls := Step(cfg, s, e).calls;
      if e.Create? {
        PipedCreateCalls(cfg, s, e);
      } else {
        PipedModifyCalls(cfg, s, e);
      }
      StepIsItsCalls(cfg, s, e);
      HonouredOne(s.plane, calls);
      ResponsesOfTwo(s.plane, calls);
    }
  }

  // ----- the agreement is kept -----

  lemma AgreesHolds(cfg: Config, h: History, id: FlowId, load: Load)
    requires Accounted(cfg, h) && Agrees(cfg, h, id, load)
    ensures Holder(cfg, h, Index(id)) == Some(id)
  {
    if Live(cfg, h, id) {
      LiveHolds(cfg, h, id);
    }
  }

  lemma CreateSettles(cfg: Config, past: History, e: Event)
    requires Next(cfg, past, e)
    requires e.Create? && Step(cfg, After(cfg, past), e).error.NoError?
    ensures Agrees(cfg, Then(past, e), EffectiveId(e), Load(ActionsOf(e), !e.pd.noPipeline))
  {
    var s := After(cfg, past);
    StepCreated(cfg, past, e);
    CreatesAccepts(cfg, s, e, EffectiveId(e));
    if !IsDefault(e) {
      AcceptEnters(cfg, s, e);
    }
    StepInstalls(cfg, s, e);
  }

  lemma ModifySettles(cfg: Config, past: History, e: Event)
    requires Next(cfg, past, e)
    requires e.Modify? && Step(cfg, After(cfg, past), e).error.NoError?
    ensures Agrees(cfg, Then(past, e), e.flow, Load(ActionsOf(e), !e.pd.noPipeline))
  {
    var s := After(cfg, past);
    ActorIsLive(cfg, past, e);
    LiveHolds(cfg, past, e.flow);
    StepLive(cfg, past, e, e.flow);
    ModifyAt(cfg, s, e);
    StepInstalls(cfg, s, e);
  }

  /** An event that acts for another flow leaves the places of the flow alone. */
  lemma StepKeepsEntry(cfg: Config, past: History, e: Event, id: FlowId)
    requires Next(cfg, past, e) && Live(cfg, past, id) && EffectiveId(e) != id
    ensures var loc, before, after := Where(After(cfg, past), id), After(cfg, past).plane.entries,
                                      After(cfg, Then(past, e)).plane.entries;
            && Live(cfg, Then(past, e), id) && Where(After(cfg, Then(past, e)), id) == loc
            && loc in before && loc in after && after[loc] == before[loc]
  {
    var s := After(cfg, past);
    StepLive(cfg, past, e, id);
    LiveHolds(cfg, past, id);
    if Accepts(cfg, s, e) && !IsDefault(e) {
      AcceptIsFresh(cfg, s, e);
    }
    if !e.Create? && OnBooks(s, e.flow) {
      ActorIsLive(cfg, past, e);
      LiveHolds(cfg, past, e.flow);
    }
    StepEntries(cfg, past, e, Where(s, id));
  }

  lemma StepKeepsOther(cfg: Config, past: History, e: Event, id: FlowId, load: Load)
    requires Next(cfg, past, e) && EffectiveId(e) != id && Agrees(cfg, past, id, load)
    ensures Agrees(cfg, Then(past, e), id, load)
  {
    var s := After(cfg, past);
    AgreesHolds(cfg, past, id, load);
    StepLive(cfg, past, e, id);
    if Live(cfg, past, id) {
      StepKeepsEntry(cfg, past, e, id);
    }
    ActsElsewhere(cfg, past, e, id);
    if Index(EffectiveId(e)) != Index(id) {
      StepLeavesPipeline(cfg, s, e, id, load);
    }
  }

  /** A message that its table refused, or that was refused before, leaves its flow as it was. */
  lemma RefusedKeeps(cfg: Config, past: History, e: Event, load: Load)
    requires Next(cfg, past, e) && Agrees(cfg, past, EffectiveId(e), load)
    requires !Step(cfg, After(cfg, past), e).error.NoError? && !HalfDone(cfg, After(cfg, past), e)
    requires !DeletesEntry(cfg, After(cfg, past), e, EffectiveId(e))
    ensures Agrees(cfg, Then(past, e), EffectiveId(e), load)
  {
    var s, id := After(cfg, past), EffectiveId(e);
    AgreesHolds(cfg, past, id, load);
    StepLive(cfg, past, e, id);
    assert Step(cfg, s, e).state == s;
  }

  lemma StepSettledAgree(cfg: Config, past: History, e: Event, id: FlowId)
    requires Next(cfg, past, e) && SettledAgree(cfg, past) && Settled(cfg, Then(past, e), id).Some?
    ensures Agrees(cfg, Then(past, e), id, Settled(cfg, Then(past, e), id).value)
  {
    var s := After(cfg, past);
    if EffectiveId(e) == id && !e.Delete? && Step(cfg, s, e).error.NoError? {
      if e.Create? {
        CreateSettles(cfg, past, e);
      } else {
        ModifySettles(cfg, past, e);
      }
    } else {
      var load := Settled(cfg, past, id).value;
      assert Agrees(cfg, past, id, load);
      if EffectiveId(e) == id {
        RefusedKeeps(cfg, past, e, load);
      } else {
        StepKeepsOther(cfg, past, e, id, load);
      }
    }
  }

  /** Bitmap and pipeline agree: in every disciplined run with its calls honoured, a flow whose latest create
      or modify succeeded has an entry, where the books say, with the signature of its latest actions, or set a
      default; and it has the pipeline entries of that same signature. */
  lemma {:induction false} BitmapAgreesWithPipeline(cfg: Config, h: History)
    requires Sound(cfg, h) && Disciplined(cfg, h)
    ensures SettledAgree(cfg, h)
  {
    if h.Then? {
      BitmapAgreesWithPipeline(cfg, h.past);
      EntriesAreAccounted(cfg, h.past);
      forall id | Settled(cfg, h, id).Some?
        ensures Agrees(cfg, h, id, Settled(cfg, h, id).value)
      {
        StepSettledAgree(cfg, h.past, h.event, id);
      }
    }
  }

  // ----- defaults -----

  /** A create that set a default, and whether it then succeeded. */
  datatype Default = Default(event: Event, succeeded: bool)

  /** The latest create that a table took as its default. */
  function LatestDefault(cfg: Config, h: History, table: TableId): (d: Option<Default>)
    ensures d.Some? ==> d.value.event.Create? && d.value.event.tableId == table
  {
    match h
    case Start(_) => None
    case Then(past, e) =>
      var s := After(cfg, past);
      if Accepts(cfg, s, e) && IsDefault(e) && e.tableId == table
      then Some(Default(e, Step(cfg, s, e).error.NoError?))
      else LatestDefault(cfg, past, table)
  }

  lemma StepDefaults(cfg: Config, s: State, e: Event)
    ensures Step(cfg, s, e).state.plane.defaults ==
            if Accepts(cfg, s, e) && IsDefault(e) then s.plane.defaults[e.tableId := RuleOf(e)] else s.plane.defaults
  {
    match e
    case Create(_, _, _, _, _, _, _, _, _) => CreateSetsDefault(cfg, s, e);
    case Modify(_, _, _, _, _) =>
    case Delete(_, _, _) =>
  }

  lemma CreateSetsDefault(cfg: Config, s: State, e: Event)
    requires e.Create?
    ensures Step(cfg, s, e).state.plane.defaults ==
            if Accepts(cfg, s, e) && IsDefault(e) then s.plane.defaults[e.tableId := RuleOf(e)] else s.plane.defaults
  {
    var p := Compile(ActionsOf(e));
    FinishKeepsTables(s.(plane := Respond(s.plane, EnterCall(e, p.sig, p.args))), e, p.sig, p.args);
  }

  /** In every run a table's default is what the latest create that it took as a default gave it. */
  lemma {:induction false} DefaultIsLatest(cfg: Config, h: History, table: TableId)
    ensures var d, defaults := LatestDefault(cfg, h, table), After(cfg, h).plane.defaults;
            && (table in defaults <==> d.Some?)
            && (d.Some? ==> defaults[table] == RuleOf(d.value.event))
  {
    if h.Then? {
      DefaultIsLatest(cfg, h.past, table);
      StepDefaults(cfg, After(cfg, h.past), h.event);
    }
  }

  /** The flow of a default that was set successfully stays settled on the actions it was created with. */
  lemma {:induction false} DefaultStaysSettled(cfg: Config, h: History, table: TableId)
    requires Sound(cfg, h) && Disciplined(cfg, h)
    requires LatestDefault(cfg, h, table).Some? && LatestDefault(cfg, h, table).value.succeeded
    ensures var e := LatestDefault(cfg, h, table).value.event;
            && DefaultFlow(cfg, h, EffectiveId(e))
            && Settled(cfg, h, EffectiveId(e)) == Some(Load(ActionsOf(e), !e.pd.noPipeline))
  {
    var past, last := h.past, h.event;
    var e := LatestDefault(cfg, h, table).value.event;
    EntriesAreAccounted(cfg, past);
    if Accepts(cfg, After(cfg, past), last) && IsDefault(last) && last.tableId == table {
      StepCreated(cfg, past, last);
    } else {
      DefaultStaysSettled(cfg, past, table);
      assert EffectiveId(last) != EffectiveId(e);
      StepLive(cfg, past, last, EffectiveId(e));
    }
  }

  /** Defaults and pipeline agree: in every disciplined run with its calls honoured, a default whose create
      succeeded has the signature and arguments of that create, and its flow the pipeline entries of the same. */
  lemma DefaultsAgree(cfg: Config, h: History, table: TableId)
    requires Sound(cfg, h) && Disciplined(cfg, h)
    requires LatestDefault(cfg, h, table).Some? && LatestDefault(cfg, h, table).value.succeeded
    ensures var s, e := After(cfg, h), LatestDefault(cfg, h, table).value.event;
            var load := Load(ActionsOf(e), !e.pd.noPipeline);
            && table in s.plane.defaults && s.plane.defaults[table] == RuleFor(EffectiveId(e), load)
            && PipelineAgrees(s.plane.tables, EffectiveId(e), load)
  {
    DefaultIsLatest(cfg, h, table);
    DefaultStaysSettled(cfg, h, table);
    BitmapAgreesWithPipeline(cfg, h);
  }

  // ----- deletes -----

  /** The flow was deleted by a callback that reported no error, and no create of its index taken since. */
  predicate DeletedCleanly(cfg: Config, h: History, id: FlowId) {
    match h
    case Start(_) => false
    case Then(past, e) =>
      var s := After(cfg, past);
      if Accepts(cfg, s, e) && Index(EffectiveId(e)) == Index(id) then false
      else DeletedCleanly(cfg, past, id) || (e.Delete? && e.flow == id && Step(cfg, s, e).error.NoError?)
  }

  lemma CleanDelete(cfg: Config, s: State, e: Event)
    requires e.Delete? && Step(cfg, s, e).error.NoError? && Answers(cfg, s, e)
    ensures DeletesEntry(cfg, s, e, e.flow)
    ensures Removed(Step(cfg, s, e).state.plane.tables, FlowKey(e.flow))
  {
    var calls := Step(cfg, s, e).calls;
    assert |calls| == 2 && calls[1] == PipelineDel(FlowKey(e.flow), e.plugin);
    StepIsItsCalls(cfg, s, e);
    HonouredOne(s.plane, calls);
    ResponsesOfTwo(s.plane, calls);
  }

  /** Once a flow is gone, who acts under its index is another flow whose create is taken. */
  lemma NobodyActs(cfg: Config, past: History, e: Event, id: FlowId)
    requires Next(cfg, past, e) && Gone(cfg, past, id)
    requires Holder(cfg, past, Index(id)).None? || Holder(cfg, past, Index(id)) == Some(id)
    requires !Accepts(cfg, After(cfg, past), e) && Index(EffectiveId(e)) == Index(id)
    ensures Step(cfg, After(cfg, past), e).state == After(cfg, past) && !Frees(cfg, past, e)
  {
    if !e.Create? && OnBooks(After(cfg, past), e.flow) {
      ActorIsLive(cfg, past, e);
    }
    IdleStep(cfg, After(cfg, past), e);
  }

  lemma StepLeavesRemoved(cfg: Config, past: History, e: Event, id: FlowId)
    requires Next(cfg, past, e) && Gone(cfg, past, id)
    requires Holder(cfg, past, Index(id)).None? || Holder(cfg, past, Index(id)) == Some(id)
    requires !(Accepts(cfg, After(cfg, past), e) && Index(EffectiveId(e)) == Index(id))
    requires Removed(After(cfg, past).plane.tables, FlowKey(id))
    ensures Removed(After(cfg, Then(past, e)).plane.tables, FlowKey(id))
    ensures Holder(cfg, Then(past, e), Index(id)) == Holder(cfg, past, Index(id))
  {
    var s := After(cfg, past);
    if Index(EffectiveId(e)) != Index(id) {
      forall name: TableName
        ensures Own(Entries(Step(cfg, s, e).state.plane.tables, name), FlowKey(id)) == []
      {
        StepLeavesOwn(cfg, s, e, id, name);
      }
    } else {
      NobodyActs(cfg, past, e, id);
    }
  }

  /** After a clean delete, until the index is used again: the flow is gone, its pipeline entries too, and its
      index is free, unless an earlier create leaked an entry. */
  lemma {:induction false} DeletedFrees(cfg: Config, h: History, id: FlowId)
    requires Sound(cfg, h) && Disciplined(cfg, h) && DeletedCleanly(cfg, h, id)
    ensures Gone(cfg, h, id) && OnBooks(After(cfg, h), id)
    ensures Holder(cfg, h, Index(id)) == if HasLeaked(cfg, h, id) then Some(id) else None
    ensures Removed(After(cfg, h).plane.tables, FlowKey(id))
  {
    var past, e := h.past, h.event;
    var s := After(cfg, past);
    EntriesAreAccounted(cfg, past);
    StepKeepsBooks(cfg, s, e, id);
    if DeletedCleanly(cfg, past, id) {
      DeletedFrees(cfg, past, id);
      StepLeavesRemoved(cfg, past, e, id);
    } else {
      CleanDelete(cfg, s, e);
      ActorIsLive(cfg, past, e);
    }
  }

  /** A flow deleted without an error leaves nothing behind, then or later, until its index is used again: no
      pipeline table has an entry of its key, and no table entry marks packets for it but those that creates
      leaked by failing; where none did, its index is free. */
  lemma DeletedLeavesNothing(cfg: Config, h: History, id: FlowId)
    requires Sound(cfg, h) && Disciplined(cfg, h) && DeletedCleanly(cfg, h, id)
    ensures forall loc :: loc in After(cfg, h).plane.entries && After(cfg, h).plane.entries[loc].flow == id ==>
                            Leaked(cfg, h, loc, id)
    ensures Holder(cfg, h, Index(id)).None? <==> !HasLeaked(cfg, h, id)
    ensures Removed(After(cfg, h).plane.tables, FlowKey(id))
  {
    DeletedFrees(cfg, h, id);
    EntriesAreAccounted(cfg, h);
  }

  // ----- no group claims the packet -----

  lemma {:induction false} EntryOfKeyOrOther(entries: seq<Entry>, e: Entry, key: Key)
    requires e in entries
    ensures e.key == key || e in Others(entries, key)
  {
    if entries[0] != e {
      EntryOfKeyOrOther(entries[1..], e, key);
    }
  }

  lemma {:induction false} OtherIsEntry(entries: seq<Entry>, e: Entry, key: Key)
    requires e in Others(entries, key)
    ensures e in entries
  {
    if entries[0].key == key || entries[0] != e {
      OtherIsEntry(entries[1..], e, key);
    }
  }

  lemma QuietKept(before: Tables, after: Tables, id: FlowId, groupId: bv32)
    requires Quiet(before, groupId) && TouchesOnly(before, after, FlowKey(id))
    ensures Quiet(after, groupId)
  {
    forall name: TableName, e | e in Entries(after, name)
      ensures QuietKey(e.key, groupId)
    {
      EntryOfKeyOrOther(Entries(after, name), e, FlowKey(id));
      if e.key != FlowKey(id) {
        OtherIsEntry(Entries(before, name), e, FlowKey(id));
      }
    }
  }

  lemma {:induction false} QuietForever(cfg: Config, h: History, groupId: bv32)
    requires Sound(cfg, h) && Quiet(Initial(h), groupId)
    ensures Quiet(After(cfg, h).plane.tables, groupId)
  {
    if h.Then? {
      var s := After(cfg, h.past);
      QuietForever(cfg, h.past, groupId);
      StepTouches(cfg, s, h.event);
      QuietKept(s.plane.tables, After(cfg, h).plane.tables, EffectiveId(h.event), groupId);
    }
  }

  // ----- packets -----

  /** A packet that hits an entry, or falls to a default, given the rule. */
  function ForwardHit(target: Target, groups: GroupTables, tables: Tables, rule: Rule, groupId: bv32, q: Queueing,
          h: Headers): (Queueing, Headers)
  {
    Forward(target, groups, tables, Metadata(Index(rule.flow), rule.sig, groupId, true), q, h)
  }

  /** What the actions ask of a packet: the output port of the set, and the set performed in the pipeline's
      order, which is that of section 5.10 of OpenFlow 1.3.0 exactly when packet and set do not clash. */
  predicate RunsActions(target: Target, actions: seq<Action>, q: Queueing, h: Headers, q': Queueing, h': Headers) {
    && q' == q.(egressSpec := OutputPort(actions, q.egressSpec))
    && h' == RunInPipelineOrder(target, actions, h)
    && (h' == RunInSpecOrder(target, actions, h) <==> !Clash(actions, h))
  }

  lemma InstalledRuns(target: Target, groups: GroupTables, tables: Tables, id: FlowId, load: Load, groupId: bv32,
          q: Queueing, h: Headers)
    requires load.piped && PipelineAgrees(tables, id, load) && Quiet(tables, groupId)
    requires LastOf(load.actions, OFPAT_GROUP).None?
    requires GroupPort(groupId, OutputPort(load.actions, q.egressSpec)) !in groups.egress
    ensures var (q', h') := ForwardHit(target, groups, tables, RuleFor(id, load), groupId, q, h);
            RunsActions(target, load.actions, q, h, q', h')
  {
    var m := Metadata(Index(id), Compile(load.actions).sig, groupId, true);
    CompilerCorrect(target, groups, tables, id, load.actions, m, q, h);
    OrderRefinement(target, load.actions, h);
  }

  /** End to end, over every disciplined run with its calls honoured: a packet that hits the entry of a flow
      whose latest create or modify succeeded goes to the output port of that message's actions with their
      action set performed, whatever happened to every other flow, defaults and failures included. */
  lemma PacketsRunLatestActions(cfg: Config, run: History, id: FlowId, target: Target, groups: GroupTables,
          groupId: bv32, q: Queueing, h: Headers)
    requires Sound(cfg, run) && Disciplined(cfg, run) && Quiet(Initial(run), groupId)
    requires Settled(cfg, run, id).Some? && !DefaultFlow(cfg, run, id)
    requires var load := Settled(cfg, run, id).value;
             && load.piped && LastOf(load.actions, OFPAT_GROUP).None?
             && GroupPort(groupId, OutputPort(load.actions, q.egressSpec)) !in groups.egress
    ensures var s := After(cfg, run);
            && OnBooks(s, id) && Where(s, id) in s.plane.entries
            && var (q', h') :=
                 ForwardHit(target, groups, s.plane.tables, s.plane.entries[Where(s, id)], groupId, q, h);
               RunsActions(target, Settled(cfg, run, id).value.actions, q, h, q', h')
  {
    BitmapAgreesWithPipeline(cfg, run);
    QuietForever(cfg, run, groupId);
    InstalledRuns(target, groups, After(cfg, run).plane.tables, id, Settled(cfg, run, id).value, groupId, q, h);
  }

  /** And a packet that misses in a table whose latest default was set successfully has the actions of that
      default performed. */
  lemma MissesRunTheDefault(cfg: Config, run: History, table: TableId, target: Target, groups: GroupTables,
          groupId: bv32, q: Queueing, h: Headers)
    requires Sound(cfg, run) && Disciplined(cfg, run) && Quiet(Initial(run), groupId)
    requires LatestDefault(cfg, run, table).Some? && LatestDefault(cfg, run, table).value.succeeded
    requires var e := LatestDefault(cfg, run, table).value.event;
             && !e.pd.noPipeline && LastOf(ActionsOf(e), OFPAT_GROUP).None?
             && GroupPort(groupId, OutputPort(ActionsOf(e), q.egressSpec)) !in groups.egress
    ensures var plane := After(cfg, run).plane;
            && table in plane.defaults
            && var (q', h') := ForwardHit(target, groups, plane.tables, plane.defaults[table], groupId, q, h);
               RunsActions(target, ActionsOf(LatestDefault(cfg, run, table).value.event), q, h, q', h')
  {
    var e := LatestDefault(cfg, run, table).value.event;
    var load := Load(ActionsOf(e), true);
    DefaultsAgree(cfg, run, table);
    QuietForever(cfg, run, groupId);
    InstalledRuns(target, groups, After(cfg, run).plane.tables, EffectiveId(e), load, groupId, q, h);
  }
}
