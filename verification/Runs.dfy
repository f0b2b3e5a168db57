/** What holds over every run of the flow callbacks, whatever is answered and in
    whatever order messages come: the books are the history of creates, calls go
    where the books say, and the data plane is what its answers make of it. */
module Runs {
  import opened OpenFlow
  import opened Parse
  import opened Pipeline
  import opened Compiler
  import opened Lifecycle

  // ----- bookkeeping is history -----

  /** A create of the flow that returned without an error. */
  predicate Creates(cfg: Config, s: State, e: Event, id: FlowId) {
    e.Create? && EffectiveId(e) == id && Step(cfg, s, e).error.NoError?
  }

  /** What the latest successful create of a flow was given. */
  function LatestCreate(cfg: Config, h: History, id: FlowId): Option<Loc> {
    match h
    case Start(_) => None
    case Then(past, e) =>
      if Creates(cfg, After(cfg, past), e, id) then Some(Loc(e.tableId, e.pd.handle))
      else LatestCreate(cfg, past, id)
  }

  predicate OnBooks(s: State, id: FlowId) {
    id in s.handles && id in s.tableIds
  }

  lemma CreateKeepsBooks(cfg: Config, s: State, e: Event)
    requires e.Create?
    ensures var s', id := Step(cfg, s, e).state, EffectiveId(e);
            if Step(cfg, s, e).error.NoError?
            then s'.handles == s.handles[id := e.pd.handle] && s'.tableIds == s.tableIds[id := e.tableId]
            else s'.handles == s.handles && s'.tableIds == s.tableIds
  {
  }

  lemma StepKeepsBooks(cfg: Config, s: State, e: Event, id: FlowId)
    ensures var s' := Step(cfg, s, e).state;
            if Creates(cfg, s, e, id) then OnBooks(s', id) && Where(s', id) == Loc(e.tableId, e.pd.handle)
            else
              && (id in s'.handles <==> id in s.handles) && (id in s'.tableIds <==> id in s.tableIds)
              && (OnBooks(s, id) ==> Where(s', id) == Where(s, id))
  {
    match e
    case Create(_, _, _, _, _, _, _, _, _) => CreateKeepsBooks(cfg, s, e);
    case Modify(_, _, _, _, _) =>
    case Delete(_, _, _) =>
  }

  /** In every run the two maps hold exactly the flows ever created successfully, each with what its
      latest successful create was given. */
  lemma {:induction false} BookkeepingIsHistory(cfg: Config, h: History, id: FlowId)
    ensures var s, latest := After(cfg, h), LatestCreate(cfg, h, id);
            && (id in s.handles <==> latest.Some?)
            && (id in s.tableIds <==> latest.Some?)
            && (latest.Some? ==> latest.value == Where(s, id))
  {
    match h
    case Start(_) =>
    case Then(past, e) =>
      BookkeepingIsHistory(cfg, past, id);
      StepKeepsBooks(cfg, After(cfg, past), e, id);
  }

  // ----- calls go where the books say -----

  predicate OnEntry(c: Call) {
    c.ModifyEntry? || c.DeleteEntry?
  }

  /** In every run, a modify or delete that reaches a table acts for the flow named by its message,
      at the place the latest successful create of that flow was given. */
  lemma Routing(cfg: Config, h: History, e: Event, c: Call)
    requires c in Step(cfg, After(cfg, h), e).calls && OnEntry(c)
    ensures !e.Create? && (c.ModifyEntry? ==> c.flow == e.flow)
    ensures LatestCreate(cfg, h, e.flow) == Some(c.loc)
  {
    if !e.Create? {
      BookkeepingIsHistory(cfg, h, e.flow);
    }
  }

  /** A successful create of the flow at the place, anywhere in a run. */
  predicate CreatedAt(cfg: Config, h: History, id: FlowId, loc: Loc) {
    match h
    case Start(_) => false
    case Then(past, e) =>
      || CreatedAt(cfg, past, id, loc)
      || (Creates(cfg, After(cfg, past), e, id) && loc == Loc(e.tableId, e.pd.handle))
  }

  /** No create names a flow that was already created successfully. */
  predicate FreshIds(cfg: Config, h: History) {
    match h
    case Start(_) => true
    case Then(past, e) => FreshIds(cfg, past) && (e.Create? ==> LatestCreate(cfg, past, EffectiveId(e)).None?)
  }

  lemma {:induction false} CreatedHasLatest(cfg: Config, h: History, id: FlowId, loc: Loc)
    requires CreatedAt(cfg, h, id, loc)
    ensures LatestCreate(cfg, h, id).Some?
  {
    if CreatedAt(cfg, h.past, id, loc) {
      CreatedHasLatest(cfg, h.past, id, loc);
    }
  }

  /** With fresh ids, the latest successful create of a flow is the only one. */
  lemma {:induction false} OneCreate(cfg: Config, h: History, id: FlowId, loc: Loc)
    requires FreshIds(cfg, h)
    ensures CreatedAt(cfg, h, id, loc) <==> LatestCreate(cfg, h, id) == Some(loc)
  {
    if h.Then? {
      OneCreate(cfg, h.past, id, loc);
      if CreatedAt(cfg, h.past, id, loc) {
        CreatedHasLatest(cfg, h.past, id, loc);
      }
    }
  }

  /** So, with fresh ids, a modify or delete that reaches a table acts at the very place that the one
      successful create of its flow was given. */
  lemma {:induction false} RoutingToTheCreate(cfg: Config, h: History, e: Event, c: Call, loc: Loc)
    requires FreshIds(cfg, h)
    requires c in Step(cfg, After(cfg, h), e).calls && OnEntry(c)
    ensures !e.Create? && (CreatedAt(cfg, h, e.flow, loc) <==> loc == c.loc)
  {
    Routing(cfg, h, e, c);
    OneCreate(cfg, h, e.flow, loc);
  }

  // ----- the data plane is what the calls make of it -----

  function Responses(plane: Plane, calls: seq<Call>): Plane
    decreases calls
  {
    if calls == [] then plane else Responses(Respond(plane, calls[0]), calls[1..])
  }

  /** The places taken once the calls are made: successful adds less successful deletes. */
  function Occupied(places: set<Loc>, calls: seq<Call>): set<Loc>
    decreases calls
  {
    if calls == [] then places
    else
      var now :=
        match calls[0]
        case AddEntry(table, _, _, _, pd) => if pd.ok then places + {Loc(table, pd.handle)} else places
        case DeleteEntry(loc, pd) => if pd.ok then places - {loc} else places
        case _ => places;
      Occupied(now, calls[1..])
  }

  lemma {:induction false} ResponsesAppend(plane: Plane, xs: seq<Call>, ys: seq<Call>)
    ensures Responses(plane, xs + ys) == Responses(Responses(plane, xs), ys)
    decreases xs
  {
    if xs == [] {
      assert xs + ys == ys;
    } else {
      ResponsesAppend(Respond(plane, xs[0]), xs[1..], ys);
      assert (xs + ys)[1..] == xs[1..] + ys;
    }
  }

  lemma ResponsesOfTwo(plane: Plane, calls: seq<Call>)
    requires |calls| <= 2
    ensures |calls| == 0 ==> Responses(plane, calls) == plane
    ensures |calls| == 1 ==> Responses(plane, calls) == Respond(plane, calls[0])
    ensures |calls| == 2 ==> Responses(plane, calls) == Respond(Respond(plane, calls[0]), calls[1])
  {
    if |calls| > 0 {
      var rest := calls[1..];
      assert Responses(plane, calls) == Responses(Respond(plane, calls[0]), rest);
      if |calls| == 2 {
        assert rest[1..] == [];
      }
    }
  }

  /** A callback changes the data plane by its calls alone. */
  lemma StepIsItsCalls(cfg: Config, s: State, e: Event)
    ensures |Step(cfg, s, e).calls| <= 2
    ensures Step(cfg, s, e).state.plane == Responses(s.plane, Step(cfg, s, e).calls)
  {
    ResponsesOfTwo(s.plane, Step(cfg, s, e).calls);
  }

  function Initial(h: History): Tables {
    match h
    case Start(tables) => tables
    case Then(past, _) => Initial(past)
  }

  lemma {:induction false} RunIsItsCalls(cfg: Config, h: History)
    ensures After(cfg, h).plane == Responses(Plane(map[], map[], Initial(h)), CallsOf(cfg, h))
  {
    match h
    case Start(_) =>
    case Then(past, e) =>
      RunIsItsCalls(cfg, past);
      StepIsItsCalls(cfg, After(cfg, past), e);
      ResponsesAppend(Plane(map[], map[], Initial(h)), CallsOf(cfg, past), Step(cfg, After(cfg, past), e).calls);
  }

  lemma {:induction false} ResponsesOccupy(plane: Plane, calls: seq<Call>)
    ensures Responses(plane, calls).entries.Keys == Occupied(plane.entries.Keys, calls)
    decreases calls
  {
    if calls != [] {
      ResponsesOccupy(Respond(plane, calls[0]), calls[1..]);
      match calls[0]
      case AddEntry(table, _, _, _, pd) =>
        assert pd.ok ==>
          Respond(plane, calls[0]).entries.Keys == plane.entries.Keys + {Loc(table, pd.handle)};
      case SetDefault(_, _, _, _, _) =>
      case ModifyEntry(_, _, _, _, _) =>
        assert Respond(plane, calls[0]).entries.Keys == plane.entries.Keys;
      case DeleteEntry(loc, pd) =>
        assert pd.ok ==> Respond(plane, calls[0]).entries.Keys == plane.entries.Keys - {loc};
      case PipelineAdd(_, _, _, _) =>
      case PipelineMod(_, _, _, _) =>
      case PipelineDel(_, _) =>
    }
  }

  /** Conservation: in every run, failures included, the entries in the tables are at exactly the
      places that successful adds took and successful deletes did not free again. */
  lemma {:induction false} Conservation(cfg: Config, h: History)
    ensures After(cfg, h).plane.entries.Keys == Occupied({}, CallsOf(cfg, h))
  {
    var start := Plane(map[], map[], Initial(h));
    RunIsItsCalls(cfg, h);
    ResponsesOccupy(start, CallsOf(cfg, h));
    assert start.entries.Keys == {};
  }

  // ----- what the data plane is held to -----

  /** The contract of a call on the data plane, in terms of what the agent passes to it: a table hands
      out a handle that is not in use and refuses to delete what it does not have; a pipeline function
      touches the entries of the key it is given alone, even when it fails, and when it succeeds
      installs the signature and arguments it is given, or removes all there is. */
  ghost predicate Honours(plane: Plane, c: Call) {
    match c
    case AddEntry(table, _, _, _, pd) => pd.ok ==> Loc(table, pd.handle) !in plane.entries
    case SetDefault(_, _, _, _, _) => true
    case ModifyEntry(_, _, _, _, _) => true
    case DeleteEntry(loc, pd) => pd.ok ==> loc in plane.entries
    case PipelineAdd(key, sig, args, plugin) =>
      TouchesOnly(plane.tables, plugin.tables, key) && (plugin.ok ==> Installed(plugin.tables, key, sig, args))
    case PipelineMod(key, sig, args, plugin) =>
      TouchesOnly(plane.tables, plugin.tables, key) && (plugin.ok ==> Installed(plugin.tables, key, sig, args))
    case PipelineDel(key, plugin) =>
      TouchesOnly(plane.tables, plugin.tables, key) && (plugin.ok ==> Removed(plugin.tables, key))
  }

  ghost predicate AllHonoured(plane: Plane, calls: seq<Call>)
    decreases calls
  {
    calls == [] || (Honours(plane, calls[0]) && AllHonoured(Respond(plane, calls[0]), calls[1..]))
  }

  ghost predicate Answers(cfg: Config, s: State, e: Event) {
    AllHonoured(s.plane, Step(cfg, s, e).calls)
  }

  /** Every call of the run is honoured. */
  ghost predicate Sound(cfg: Config, h: History) {
    match h
    case Start(_) => true
    case Then(past, e) => Sound(cfg, past) && Answers(cfg, After(cfg, past), e)
  }

  lemma HonouredOne(plane: Plane, calls: seq<Call>)
    requires AllHonoured(plane, calls) && |calls| <= 2
    ensures |calls| >= 1 ==> Honours(plane, calls[0])
    ensures |calls| == 2 ==> Honours(Respond(plane, calls[0]), calls[1])
  {
    if |calls| == 2 {
      assert AllHonoured(Respond(plane, calls[0]), calls[1..]) && calls[1..][0] == calls[1];
    }
  }

  // ----- counting -----

  function AddedBy(calls: seq<Call>): nat {
    if calls == [] then 0 else (if calls[0].AddEntry? && calls[0].pd.ok then 1 else 0) + AddedBy(calls[1..])
  }

  function DeletedBy(calls: seq<Call>): nat {
    if calls == [] then 0 else (if calls[0].DeleteEntry? && calls[0].pd.ok then 1 else 0) + DeletedBy(calls[1..])
  }

  lemma {:induction false} CountsAppend(xs: seq<Call>, ys: seq<Call>)
    ensures AddedBy(xs + ys) == AddedBy(xs) + AddedBy(ys) && DeletedBy(xs + ys) == DeletedBy(xs) + DeletedBy(ys)
  {
    if xs == [] {
      assert xs + ys == ys;
    } else {
      CountsAppend(xs[1..], ys);
      assert (xs + ys)[1..] == xs[1..] + ys;
    }
  }

  lemma OneCallCounts(plane: Plane, c: Call)
    requires Honours(plane, c)
    ensures |Respond(plane, c).entries| + (if c.DeleteEntry? && c.pd.ok then 1 else 0)
         == |plane.entries| + (if c.AddEntry? && c.pd.ok then 1 else 0)
  {
    match c
    case AddEntry(_, _, _, _, _) =>
    case SetDefault(_, _, _, _, _) =>
    case ModifyEntry(_, _, _, _, _) =>
      assert Respond(plane, c).entries.Keys == plane.entries.Keys;
    case DeleteEntry(loc, pd) =>
      assert pd.ok ==> plane.entries.Keys == Respond(plane, c).entries.Keys + {loc};
    case PipelineAdd(_, _, _, _) =>
    case PipelineMod(_, _, _, _) =>
    case PipelineDel(_, _) =>
  }

  lemma {:induction false} CallsCount(plane: Plane, calls: seq<Call>)
    requires AllHonoured(plane, calls)
    ensures |Responses(plane, calls).entries| + DeletedBy(calls) == |plane.entries| + AddedBy(calls)
    decreases calls
  {
    if calls != [] {
      OneCallCounts(plane, calls[0]);
      CallsCount(Respond(plane, calls[0]), calls[1..]);
    }
  }

  /** And when every call is honoured they are as many as adds succeeded, less deletes. */
  lemma {:induction false} ConservationCounts(cfg: Config, h: History)
    requires Sound(cfg, h)
    ensures |After(cfg, h).plane.entries| + DeletedBy(CallsOf(cfg, h)) == AddedBy(CallsOf(cfg, h))
  {
    match h
    case Start(_) =>
    case Then(past, e) =>
      var calls := Step(cfg, After(cfg, past), e).calls;
      ConservationCounts(cfg, past);
      StepIsItsCalls(cfg, After(cfg, past), e);
      CallsCount(After(cfg, past).plane, calls);
      CountsAppend(CallsOf(cfg, past), calls);
  }
}
