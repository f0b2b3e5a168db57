/** Which entries are in the tables, and whose they are, over every disciplined run
    in which the data plane honours the calls made on it; and why the discipline is
    needed. */
module Accounting {
  import opened OpenFlow
  import opened Parse
  import opened Pipeline
  import opened Compiler
  import opened Lifecycle
  import opened Runs

  // ----- what has become of a flow -----

  /** A create whose entry, or whose default, the table took, whatever came of it then. */
  predicate Accepts(cfg: Config, s: State, e: Event) {
    e.Create? && Step(cfg, s, e).calls != [] && e.pd.ok
  }

  predicate DeletesEntry(cfg: Config, s: State, e: Event, id: FlowId) {
    e.Delete? && e.flow == id && OnBooks(s, id) && s.tableIds[id] in cfg.del && e.pd.ok
  }

  /** The flow's entry has been deleted and it has not been created again. */
  predicate Gone(cfg: Config, h: History, id: FlowId) {
    match h
    case Start(_) => false
    case Then(past, e) =>
      && !Creates(cfg, After(cfg, past), e, id)
      && (Gone(cfg, past, id) || DeletesEntry(cfg, After(cfg, past), e, id))
  }

  /** The latest successful create of the flow set a default. */
  predicate DefaultFlow(cfg: Config, h: History, id: FlowId) {
    match h
    case Start(_) => false
    case Then(past, e) =>
      if Creates(cfg, After(cfg, past), e, id) then IsDefault(e) else DefaultFlow(cfg, past, id)
  }

  /** The flow is on the books with an entry of its own. */
  predicate Live(cfg: Config, h: History, id: FlowId) {
    OnBooks(After(cfg, h), id) && !Gone(cfg, h, id) && !DefaultFlow(cfg, h, id)
  }

  /** A create whose entry the table took and which then failed to add its pipeline. */
  predicate Fails(cfg: Config, s: State, e: Event, id: FlowId) {
    Accepts(cfg, s, e) && !IsDefault(e) && !e.pd.noPipeline && !e.plugin.ok && EffectiveId(e) == id
  }

  predicate Leaks(cfg: Config, s: State, e: Event, loc: Loc, id: FlowId) {
    Fails(cfg, s, e, id) && loc == Loc(e.tableId, e.pd.handle)
  }

  predicate Leaked(cfg: Config, h: History, loc: Loc, id: FlowId) {
    match h
    case Start(_) => false
    case Then(past, e) => Leaked(cfg, past, loc, id) || Leaks(cfg, After(cfg, past), e, loc, id)
  }

  /** The flow leaked an entry somewhere. */
  predicate HasLeaked(cfg: Config, h: History, id: FlowId) {
    match h
    case Start(_) => false
    case Then(past, e) => HasLeaked(cfg, past, id) || Fails(cfg, After(cfg, past), e, id)
  }

  /** The flow that holds a 32-bit index: the last whose create a table accepted, until its entry is
      deleted, whatever the callback that did it returned; and for good once it has leaked an entry. */
  function Holder(cfg: Config, h: History, index: bv32): Option<FlowId> {
    match h
    case Start(_) => None
    case Then(past, e) =>
      if Accepts(cfg, After(cfg, past), e) && Index(EffectiveId(e)) == index then Some(EffectiveId(e))
      else if Frees(cfg, past, e) && Index(e.flow) == index then None
      else Holder(cfg, past, index)
  }

  predicate Frees(cfg: Config, past: History, e: Event) {
    e.Delete? && DeletesEntry(cfg, After(cfg, past), e, e.flow) && !HasLeaked(cfg, past, e.flow)
  }

  /** The discipline asked of whoever sends the messages: a create uses an index that no other flow holds,
      for a flow that is not in place, and a modify or delete names neither a flow whose entry is gone nor
      one that set a default. */
  predicate Disciplined(cfg: Config, h: History) {
    match h
    case Start(_) => true
    case Then(past, e) =>
      && Disciplined(cfg, past)
      && if e.Create? then
           var id := EffectiveId(e);
           var holder := Holder(cfg, past, Index(id));
           holder.None? || (holder == Some(id) && !Live(cfg, past, id) && !DefaultFlow(cfg, past, id))
         else !Gone(cfg, past, e.flow) && !DefaultFlow(cfg, past, e.flow)
  }

  // ----- one event, seen from one place -----

  function RuleOf(e: Event): Rule
    requires !e.Delete?
  {
    Rule(EffectiveId(e), Compile(ActionsOf(e)).sig, Compile(ActionsOf(e)).args, !e.pd.noPipeline)
  }

  lemma FinishKeepsTables(s: State, e: Event, sig: bv32, args: ArgTable)
    requires e.Create?
    ensures var plane := FinishCreate(s, e, sig, args).state.plane;
            plane.entries == s.plane.entries && plane.defaults == s.plane.defaults
  {
  }

  lemma AcceptEnters(cfg: Config, s: State, e: Event)
    requires Accepts(cfg, s, e) && !IsDefault(e)
    ensures var loc, s' := Loc(e.tableId, e.pd.handle), Step(cfg, s, e).state;
            && s'.plane.entries == s.plane.entries[loc := RuleOf(e)]
            && (Creates(cfg, s, e, EffectiveId(e)) || Leaks(cfg, s, e, loc, EffectiveId(e)))
  {
  }

  lemma AcceptIsFresh(cfg: Config, s: State, e: Event)
    requires Accepts(cfg, s, e) && !IsDefault(e) && Answers(cfg, s, e)
    ensures Loc(e.tableId, e.pd.handle) !in s.plane.entries
  {
    StepIsItsCalls(cfg, s, e);
    HonouredOne(s.plane, Step(cfg, s, e).calls);
    assert Step(cfg, s, e).calls[0].AddEntry?;
  }

  lemma CreateOtherwise(cfg: Config, s: State, e: Event)
    requires e.Create? && !(Accepts(cfg, s, e) && !IsDefault(e))
    ensures Step(cfg, s, e).state.plane.entries == s.plane.entries
  {
    var p := Compile(ActionsOf(e));
    FinishKeepsTables(s.(plane := Respond(s.plane, EnterCall(e, p.sig, p.args))), e, p.sig, p.args);
  }

  lemma ModifyAt(cfg: Config, s: State, e: Event)
    requires e.Modify?
    ensures var before, after := s.plane.entries, Step(cfg, s, e).state.plane.entries;
            if OnBooks(s, e.flow) && s.tableIds[e.flow] in cfg.mod && e.pd.ok && Where(s, e.flow) in before
            then after == before[Where(s, e.flow) := RuleOf(e)]
            else after == before
  {
  }

  lemma DeleteAt(cfg: Config, s: State, e: Event)
    requires e.Delete?
    ensures var before, after := s.plane.entries, Step(cfg, s, e).state.plane.entries;
            after == if DeletesEntry(cfg, s, e, e.flow) then before - {Where(s, e.flow)} else before
  {
  }

  lemma CreatesAccepts(cfg: Config, s: State, e: Event, id: FlowId)
    requires Creates(cfg, s, e, id)
    ensures Accepts(cfg, s, e) && EffectiveId(e) == id
  {
  }

  // ----- the invariant -----

  /** Every live flow has its entry, in its place. */
  ghost predicate LiveHaveEntries(cfg: Config, h: History) {
    forall id :: Live(cfg, h, id) ==>
      && Where(After(cfg, h), id) in After(cfg, h).plane.entries
      && After(cfg, h).plane.entries[Where(After(cfg, h), id)].flow == id
  }

  /** An entry of the flow is accounted for: the flow is live there, or leaked it. */
  predicate Owns(cfg: Config, h: History, id: FlowId, loc: Loc) {
    (Live(cfg, h, id) && Where(After(cfg, h), id) == loc) || Leaked(cfg, h, loc, id)
  }

  ghost predicate EntriesOwned(cfg: Config, h: History) {
    forall loc :: loc in After(cfg, h).plane.entries ==>
      var id := After(cfg, h).plane.entries[loc].flow;
      Owns(cfg, h, id, loc) && Holder(cfg, h, Index(id)) == Some(id)
  }

  /** A leak keeps its index held, and its place is not that of a live flow. */
  ghost predicate LeaksHeld(cfg: Config, h: History) {
    forall loc, id :: Leaked(cfg, h, loc, id) ==>
      && (Live(cfg, h, id) ==> Where(After(cfg, h), id) != loc) && Holder(cfg, h, Index(id)) == Some(id)
      && loc in After(cfg, h).plane.entries && After(cfg, h).plane.entries[loc].flow == id
  }

  ghost predicate DefaultsHeld(cfg: Config, h: History) {
    forall id :: DefaultFlow(cfg, h, id) ==>
      OnBooks(After(cfg, h), id) && !Gone(cfg, h, id) && Holder(cfg, h, Index(id)) == Some(id)
  }

  ghost predicate Accounted(cfg: Config, h: History) {
    LiveHaveEntries(cfg, h) && EntriesOwned(cfg, h) && LeaksHeld(cfg, h) && DefaultsHeld(cfg, h)
  }

  /** What is known when an event follows an accounted run. */
  ghost predicate Next(cfg: Config, past: History, e: Event) {
    Accounted(cfg, past) && Disciplined(cfg, Then(past, e)) && Answers(cfg, After(cfg, past), e)
  }

  lemma LiveHolds(cfg: Config, h: History, id: FlowId)
    requires Accounted(cfg, h) && Live(cfg, h, id)
    ensures Holder(cfg, h, Index(id)) == Some(id)
    ensures Where(After(cfg, h), id) in After(cfg, h).plane.entries
    ensures After(cfg, h).plane.entries[Where(After(cfg, h), id)].flow == id
  {
  }

  /** Who modifies or deletes, and is on the books, is live. */
  lemma {:induction false} ActorIsLive(cfg: Config, past: History, e: Event)
    requires Next(cfg, past, e) && !e.Create? && OnBooks(After(cfg, past), e.flow)
    ensures Live(cfg, past, e.flow) && Holder(cfg, past, Index(e.flow)) == Some(e.flow)
  {
    LiveHolds(cfg, past, e.flow);
  }

  /** An index held by a flow that an event does not name stays held. */
  lemma HolderStays(cfg: Config, past: History, e: Event, id: FlowId)
    requires Next(cfg, past, e) && Holder(cfg, past, Index(id)) == Some(id)
    requires !(Frees(cfg, past, e) && e.flow == id)
    ensures Holder(cfg, Then(past, e), Index(id)) == Some(id)
  {
    if Frees(cfg, past, e) {
      ActorIsLive(cfg, past, e);
    }
  }

  lemma {:induction false} LeakedHasLeaked(cfg: Config, h: History, loc: Loc, id: FlowId)
    requires Leaked(cfg, h, loc, id)
    ensures HasLeaked(cfg, h, id)
  {
    if Leaked(cfg, h.past, loc, id) {
      LeakedHasLeaked(cfg, h.past, loc, id);
    }
  }

  /** A disciplined create finds its flow neither live nor with a default. */
  lemma CreateFindsNothing(cfg: Config, past: History, e: Event)
    requires Next(cfg, past, e) && e.Create?
    ensures !Live(cfg, past, EffectiveId(e)) && !DefaultFlow(cfg, past, EffectiveId(e))
  {
    if Live(cfg, past, EffectiveId(e)) {
      LiveHolds(cfg, past, EffectiveId(e));
    }
  }

  /** A flow that the event does not make live stays as live as it was. */
  lemma StepLive(cfg: Config, past: History, e: Event, id: FlowId)
    requires !Creates(cfg, After(cfg, past), e, id)
    ensures Live(cfg, Then(past, e), id) <==>
              Live(cfg, past, id) && !DeletesEntry(cfg, After(cfg, past), e, id)
    ensures Live(cfg, past, id) ==> Where(After(cfg, Then(past, e)), id) == Where(After(cfg, past), id)
    ensures DefaultFlow(cfg, Then(past, e), id) <==> DefaultFlow(cfg, past, id)
  {
    StepKeepsBooks(cfg, After(cfg, past), e, id);
  }

  lemma StepCreated(cfg: Config, past: History, e: Event)
    requires Creates(cfg, After(cfg, past), e, EffectiveId(e))
    ensures var id, h := EffectiveId(e), Then(past, e);
            && OnBooks(After(cfg, h), id) && !Gone(cfg, h, id)
            && Where(After(cfg, h), id) == Loc(e.tableId, e.pd.handle)
            && (DefaultFlow(cfg, h, id) <==> IsDefault(e)) && (Live(cfg, h, id) <==> !IsDefault(e))
            && Holder(cfg, h, Index(id)) == Some(id)
  {
    StepKeepsBooks(cfg, After(cfg, past), e, EffectiveId(e));
    CreatesAccepts(cfg, After(cfg, past), e, EffectiveId(e));
  }

  // ----- the invariant is kept -----

  /** What an event does to the entries it does not create. */
  lemma StepEntries(cfg: Config, past: History, e: Event, loc: Loc)
    requires Next(cfg, past, e)
    requires !(Accepts(cfg, After(cfg, past), e) && !IsDefault(e) && loc == Loc(e.tableId, e.pd.handle))
    ensures var s, after := After(cfg, past), After(cfg, Then(past, e)).plane.entries;
            var before := s.plane.entries;
            && (loc in after ==> loc in before && before[loc].flow == after[loc].flow)
            && (loc in before && !(OnBooks(s, EffectiveId(e)) && !e.Create? && loc == Where(s, EffectiveId(e))) ==>
                  loc in after && after[loc] == before[loc])
            && (loc in before && loc !in after ==>
                  e.Delete? && DeletesEntry(cfg, s, e, e.flow) && loc == Where(s, e.flow))
            && (e.Delete? && DeletesEntry(cfg, s, e, e.flow) ==> Where(s, e.flow) !in after)
  {
    var s := After(cfg, past);
    match e
    case Create(_, _, _, _, _, _, _, _, _) =>
      if Accepts(cfg, s, e) && !IsDefault(e) {
        AcceptEnters(cfg, s, e);
      } else {
        CreateOtherwise(cfg, s, e);
      }
    case Modify(_, _, _, _, _) =>
      ModifyAt(cfg, s, e);
      if OnBooks(s, e.flow) {
        ActorIsLive(cfg, past, e);
        LiveHolds(cfg, past, e.flow);
      }
    case Delete(_, _, _) =>
      DeleteAt(cfg, s, e);
  }

  lemma StepLiveHaveEntries(cfg: Config, past: History, e: Event, id: FlowId)
    requires Next(cfg, past, e) && Live(cfg, Then(past, e), id)
    ensures var s := After(cfg, Then(past, e));
            Where(s, id) in s.plane.entries && s.plane.entries[Where(s, id)].flow == id
  {
    var s := After(cfg, past);
    if Creates(cfg, s, e, id) {
      StepCreated(cfg, past, e);
      CreatesAccepts(cfg, s, e, id);
      AcceptEnters(cfg, s, e);
    } else {
      StepLive(cfg, past, e, id);
      LiveHolds(cfg, past, id);
      if Accepts(cfg, s, e) && !IsDefault(e) {
        AcceptIsFresh(cfg, s, e);
      }
      StepEntries(cfg, past, e, Where(s, id));
      if e.Delete? && DeletesEntry(cfg, s, e, e.flow) {
        ActorIsLive(cfg, past, e);
        LiveHolds(cfg, past, e.flow);
      }
    }
  }

  lemma StepEntriesOwned(cfg: Config, past: History, e: Event, loc: Loc)
    requires Next(cfg, past, e) && loc in After(cfg, Then(past, e)).plane.entries
    ensures var id := After(cfg, Then(past, e)).plane.entries[loc].flow;
            Owns(cfg, Then(past, e), id, loc) && Holder(cfg, Then(past, e), Index(id)) == Some(id)
  {
    var s := After(cfg, past);
    if Accepts(cfg, s, e) && !IsDefault(e) && loc == Loc(e.tableId, e.pd.handle) {
      AcceptEnters(cfg, s, e);
      if Creates(cfg, s, e, EffectiveId(e)) {
        StepCreated(cfg, past, e);
      }
    } else {
      StepEntries(cfg, past, e, loc);
      var id := s.plane.entries[loc].flow;
      if Leaked(cfg, past, loc, id) {
        LeakedHasLeaked(cfg, past, loc, id);
      } else {
        if e.Create? {
          CreateFindsNothing(cfg, past, e);
        }
        StepLive(cfg, past, e, id);
      }
      HolderStays(cfg, past, e, id);
    }
  }

  lemma StepLeaksHeld(cfg: Config, past: History, e: Event, loc: Loc, id: FlowId)
    requires Next(cfg, past, e) && Leaked(cfg, Then(past, e), loc, id)
    ensures var s := After(cfg, Then(past, e));
            && (Live(cfg, Then(past, e), id) ==> Where(s, id) != loc)
            && Holder(cfg, Then(past, e), Index(id)) == Some(id)
            && loc in s.plane.entries && s.plane.entries[loc].flow == id
  {
    var s := After(cfg, past);
    if Leaked(cfg, past, loc, id) {
      LeakedHasLeaked(cfg, past, loc, id);
      HolderStays(cfg, past, e, id);
      LeakStays(cfg, past, e, loc, id);
    } else {
      CreateFindsNothing(cfg, past, e);
      AcceptEnters(cfg, s, e);
      LeakFails(cfg, s, e, loc, id);
      StepLive(cfg, past, e, id);
    }
  }

  lemma LeakStays(cfg: Config, past: History, e: Event, loc: Loc, id: FlowId)
    requires Next(cfg, past, e) && Leaked(cfg, past, loc, id)
    ensures var s := After(cfg, Then(past, e));
            && (Live(cfg, Then(past, e), id) ==> Where(s, id) != loc)
            && loc in s.plane.entries && s.plane.entries[loc].flow == id
  {
    var s := After(cfg, past);
    if Accepts(cfg, s, e) && !IsDefault(e) {
      AcceptIsFresh(cfg, s, e);
    }
    if !e.Create? && OnBooks(s, e.flow) {
      ActorIsLive(cfg, past, e);
      LiveHolds(cfg, past, e.flow);
    }
    StepEntries(cfg, past, e, loc);
    if Creates(cfg, s, e, id) {
      StepCreated(cfg, past, e);
      CreatesAccepts(cfg, s, e, id);
    } else {
      StepLive(cfg, past, e, id);
    }
  }

  lemma LeakFails(cfg: Config, s: State, e: Event, loc: Loc, id: FlowId)
    requires Leaks(cfg, s, e, loc, id)
    ensures !Creates(cfg, s, e, id)
  {
  }

  lemma StepDefaultsHeld(cfg: Config, past: History, e: Event, id: FlowId)
    requires Next(cfg, past, e) && DefaultFlow(cfg, Then(past, e), id)
    ensures OnBooks(After(cfg, Then(past, e)), id) && !Gone(cfg, Then(past, e), id)
    ensures Holder(cfg, Then(past, e), Index(id)) == Some(id)
  {
    if Creates(cfg, After(cfg, past), e, id) {
      StepCreated(cfg, past, e);
    } else {
      HolderStays(cfg, past, e, id);
      StepKeepsBooks(cfg, After(cfg, past), e, id);
    }
  }

  /** In every disciplined run with its calls honoured, defaults and failures included: each live flow
      has its own entry where the books say, and each entry in the tables is that of a live flow or one
      whose create took its place and then failed to add its pipeline. */
  lemma {:induction false} EntriesAreAccounted(cfg: Config, h: History)
    requires Sound(cfg, h) && Disciplined(cfg, h)
    ensures Accounted(cfg, h)
  {
    if h.Then? {
      var past, e := h.past, h.event;
      EntriesAreAccounted(cfg, past);
      forall id | Live(cfg, h, id)
        ensures Where(After(cfg, h), id) in After(cfg, h).plane.entries
        ensures After(cfg, h).plane.entries[Where(After(cfg, h), id)].flow == id
      {
        StepLiveHaveEntries(cfg, past, e, id);
      }
      forall loc | loc in After(cfg, h).plane.entries
        ensures var id := After(cfg, h).plane.entries[loc].flow;
                Owns(cfg, h, id, loc) && Holder(cfg, h, Index(id)) == Some(id)
      {
        StepEntriesOwned(cfg, past, e, loc);
      }
      forall loc, id | Leaked(cfg, h, loc, id)
        ensures Live(cfg, h, id) ==> Where(After(cfg, h), id) != loc
        ensures Holder(cfg, h, Index(id)) == Some(id)
        ensures loc in After(cfg, h).plane.entries && After(cfg, h).plane.entries[loc].flow == id
      {
        StepLeaksHeld(cfg, past, e, loc, id);
      }
      forall id | DefaultFlow(cfg, h, id)
        ensures OnBooks(After(cfg, h), id) && !Gone(cfg, h, id) && Holder(cfg, h, Index(id)) == Some(id)
      {
        StepDefaultsHeld(cfg, past, e, id);
      }
    }
  }

  /** So the tables hold exactly the places of the live flows and those that were leaked. */
  lemma EntriesExactly(cfg: Config, h: History, loc: Loc)
    requires Sound(cfg, h) && Disciplined(cfg, h)
    ensures loc in After(cfg, h).plane.entries <==> exists id :: Owns(cfg, h, id, loc)
  {
    EntriesAreAccounted(cfg, h);
    if loc in After(cfg, h).plane.entries {
      assert Owns(cfg, h, After(cfg, h).plane.entries[loc].flow, loc);
    }
  }

  // ----- leaks -----

  /** The table takes a modify or delete at the place the books give for its flow. */
  predicate Reaches(cfg: Config, s: State, e: Event, loc: Loc) {
    && !e.Create? && OnBooks(s, e.flow) && Where(s, e.flow) == loc
    && loc.table in (if e.Delete? then cfg.del else cfg.mod) && e.pd.ok
  }

  lemma PlaceChanges(cfg: Config, s: State, e: Event, loc: Loc)
    requires Answers(cfg, s, e) && loc in s.plane.entries
    ensures var before, after := s.plane.entries, Step(cfg, s, e).state.plane.entries;
            && (loc !in after || after[loc] != before[loc] <==>
                  Reaches(cfg, s, e, loc) && (e.Delete? || RuleOf(e) != before[loc]))
            && (loc !in after <==> Reaches(cfg, s, e, loc) && e.Delete?)
  {
    match e
    case Create(_, _, _, _, _, _, _, _, _) =>
      if Accepts(cfg, s, e) && !IsDefault(e) {
        AcceptEnters(cfg, s, e);
        AcceptIsFresh(cfg, s, e);
      } else {
        CreateOtherwise(cfg, s, e);
      }
    case Modify(_, _, _, _, _) =>
      ModifyAt(cfg, s, e);
    case Delete(_, _, _) =>
      DeleteAt(cfg, s, e);
  }

  /** Exactly which messages, disciplined or not, get at a leaked entry: a delete, or a modify that changes
      it, that its table accepts and that names a flow whose books point there. That flow is then gone or
      set a default; such a message is a stale one. */
  lemma LeakTouched(cfg: Config, h: History, e: Event, loc: Loc, id: FlowId)
    requires Sound(cfg, h) && Disciplined(cfg, h) && Leaked(cfg, h, loc, id)
    requires Answers(cfg, After(cfg, h), e)
    ensures loc in After(cfg, h).plane.entries
    ensures var s, after := After(cfg, h), After(cfg, Then(h, e)).plane.entries;
            && (loc !in after || after[loc] != s.plane.entries[loc] <==>
                  Reaches(cfg, s, e, loc) && (e.Delete? || RuleOf(e) != s.plane.entries[loc]))
            && (loc !in after <==> Reaches(cfg, s, e, loc) && e.Delete?)
            && (Reaches(cfg, s, e, loc) ==> Gone(cfg, h, e.flow) || DefaultFlow(cfg, h, e.flow))
  {
    EntriesAreAccounted(cfg, h);
    PlaceChanges(cfg, After(cfg, h), e, loc);
    if !e.Create? && Live(cfg, h, e.flow) {
      LiveHolds(cfg, h, e.flow);
    }
  }

  predicate Extends(h: History, later: History) {
    h == later || (later.Then? && Extends(h, later.past))
  }

  /** So, as long as the discipline is kept, a leaked entry stays as it is for good. */
  lemma {:induction false} LeakIsForever(cfg: Config, h: History, later: History, loc: Loc, id: FlowId)
    requires Extends(h, later) && Sound(cfg, later) && Disciplined(cfg, later) && Leaked(cfg, h, loc, id)
    ensures Leaked(cfg, later, loc, id)
    ensures loc in After(cfg, h).plane.entries && loc in After(cfg, later).plane.entries
    ensures After(cfg, later).plane.entries[loc] == After(cfg, h).plane.entries[loc]
    decreases later
  {
    EntriesAreAccounted(cfg, later);
    if h != later {
      LeakIsForever(cfg, h, later.past, loc, id);
      LeakTouched(cfg, later.past, later.event, loc, id);
    }
  }

  /** After a disciplined run, a modify or delete meets an entry of its own flow exactly when the flow is
      live, or leaked an entry just there; the books alone do not tell, since they are never cleared. */
  lemma MeetsOwnEntry(cfg: Config, h: History, e: Event, c: Call)
    requires Sound(cfg, h) && Disciplined(cfg, h)
    requires c in Step(cfg, After(cfg, h), e).calls && OnEntry(c)
    ensures !e.Create?
    ensures var entries := After(cfg, h).plane.entries;
            (c.loc in entries && entries[c.loc].flow == e.flow) <==>
              Live(cfg, h, e.flow) || Leaked(cfg, h, c.loc, e.flow)
  {
    Routing(cfg, h, e, c);
    BookkeepingIsHistory(cfg, h, e.flow);
    EntriesAreAccounted(cfg, h);
  }

  // ----- the discipline is needed -----

  const ONE_TABLE := Config({0}, {0}, {0}, {0})

  /** A create whose table takes it under a handle, signals that it needs no pipeline or else sees the
      pipeline fail. */
  function Entering(id: FlowId, handle: Handle, noPipeline: bool): Event {
    Create(id, 0, 0, 0, [4], [], true, Pd(true, handle, noPipeline), Plugin(false, map[]))
  }

  /** A delete whose table entry goes, and whose pipeline entries do not. */
  function HalfDelete(id: FlowId): Event {
    Delete(id, Pd(true, 0, false), Plugin(false, map[]))
  }

  lemma OneFieldMatch()
    ensures MatchBytes([4]) == 16
  {
    assert OxmBytes([4]) == 8 + OxmBytes([4][1..]);
    assert [4][1..] == [];
  }

  /** The books of the example runs: every flow at handle 5 of table 0. */
  datatype Books = Books(handles: map<FlowId, Handle>, tableIds: map<FlowId, TableId>)
  {
    function With(id: FlowId): Books {
      Books(handles[id := 5], tableIds[id := 0])
    }
  }

  const NO_BOOKS := Books(map[], map[])

  function Example(books: Books, entries: map<Loc, Rule>): State {
    State(books.handles, books.tableIds, Plane(entries, map[], map[]))
  }

  function EntryOf(id: FlowId, piped: bool): map<Loc, Rule> {
    map[Loc(0, 5) := Rule(id, 0, map[], piped)]
  }

  lemma EnteringSteps(books: Books, id: FlowId, noPipeline: bool)
    ensures var s, e := Example(books, map[]), Entering(id, 5, noPipeline);
            && Step(ONE_TABLE, s, e).state ==
               Example(if noPipeline then books.With(id) else books, EntryOf(id, !noPipeline))
            && Answers(ONE_TABLE, s, e)
            && Accepts(ONE_TABLE, s, e) && !IsDefault(e)
            && (Creates(ONE_TABLE, s, e, id) <==> noPipeline)
            && (Fails(ONE_TABLE, s, e, id) <==> !noPipeline)
  {
    var s, e := Example(books, map[]), Entering(id, 5, noPipeline);
    var r := Step(ONE_TABLE, s, e);
    OneFieldMatch();
    assert ActionsOf(e) == [] && Compile([]) == EMPTY;
    assert r.state.plane == Plane(EntryOf(id, !noPipeline), map[], map[]);
    EnteringAnswers(s, e);
  }

  lemma EnteringAnswers(s: State, e: Event)
    requires e.Create? && e.plugin == Plugin(false, map[])
    requires s.plane.entries == map[] && s.plane.tables == map[]
    ensures Answers(ONE_TABLE, s, e)
  {
    var calls := Step(ONE_TABLE, s, e).calls;
    StepIsItsCalls(ONE_TABLE, s, e);
    if |calls| == 2 {
      assert calls[1..][1..] == [];
      assert calls[1..][0] == calls[1];
    }
  }

  lemma HalfDeleteSteps(books: Books, entries: map<Loc, Rule>, id: FlowId)
    requires var s := Example(books, entries); OnBooks(s, id) && Where(s, id) == Loc(0, 5)
    requires Loc(0, 5) in entries
    ensures var s, e := Example(books, entries), HalfDelete(id);
            var r := Step(ONE_TABLE, s, e);
            && r.state == Example(books, entries - {Loc(0, 5)}) && r.error == Unknown
            && Answers(ONE_TABLE, s, e)
            && DeletesEntry(ONE_TABLE, s, e, id)
  {
    var s, e := Example(books, entries), HalfDelete(id);
    var calls := Step(ONE_TABLE, s, e).calls;
    assert Where(s, id) == Loc(0, 5);
    assert calls == [DeleteEntry(Loc(0, 5), e.pd), PipelineDel(FlowKey(id), e.plugin)];
    assert calls[1..] == [PipelineDel(FlowKey(id), e.plugin)];
    assert calls[1..][1..] == [];
  }

  /** The flow f is created and its delete fails half-way; then a table gives g the handle again. */
  function Reused(f: FlowId, g: FlowId, noPipeline: bool): History {
    Then(Then(Then(Start(map[]), Entering(f, 5, true)), HalfDelete(f)), Entering(g, 5, noPipeline))
  }

  lemma ReusedStates(f: FlowId, g: FlowId, noPipeline: bool)
    ensures var h := Reused(f, g, noPipeline);
            && After(ONE_TABLE, h.past.past.past) == Example(NO_BOOKS, map[])
            && After(ONE_TABLE, h.past.past) == Example(NO_BOOKS.With(f), EntryOf(f, false))
            && After(ONE_TABLE, h.past) == Example(NO_BOOKS.With(f), map[])
            && After(ONE_TABLE, h) ==
               Example(if noPipeline then NO_BOOKS.With(f).With(g) else NO_BOOKS.With(f), EntryOf(g, !noPipeline))
  {
    var h := Reused(f, g, noPipeline);
    EnteringSteps(NO_BOOKS, f, true);
    assert EntryOf(f, false) - {Loc(0, 5)} == map[];
    HalfDeleteSteps(NO_BOOKS.With(f), EntryOf(f, false), f);
    EnteringSteps(NO_BOOKS.With(f), g, noPipeline);
  }

  lemma ReusedIsSound(f: FlowId, g: FlowId, noPipeline: bool)
    ensures Sound(ONE_TABLE, Reused(f, g, noPipeline))
  {
    ReusedStates(f, g, noPipeline);
    EnteringSteps(NO_BOOKS, f, true);
    HalfDeleteSteps(NO_BOOKS.With(f), EntryOf(f, false), f);
    EnteringSteps(NO_BOOKS.With(f), g, noPipeline);
  }

  lemma ReusedIsDisciplined(f: FlowId, g: FlowId, noPipeline: bool)
    requires f != g
    ensures var h := Reused(f, g, noPipeline);
            && Disciplined(ONE_TABLE, h)
            && Gone(ONE_TABLE, h, f)
            && if noPipeline then Live(ONE_TABLE, h, g) else Leaked(ONE_TABLE, h, Loc(0, 5), g)
  {
    var h := Reused(f, g, noPipeline);
    ReusedStates(f, g, noPipeline);
    EnteringSteps(NO_BOOKS, f, true);
    assert Disciplined(ONE_TABLE, h.past.past) && Live(ONE_TABLE, h.past.past, f);
    HalfDeleteSteps(NO_BOOKS.With(f), EntryOf(f, false), f);
    assert Holder(ONE_TABLE, h.past.past.past, Index(g)).None?;
    assert Disciplined(ONE_TABLE, h.past) && Gone(ONE_TABLE, h.past, f);
    EnteringSteps(NO_BOOKS.With(f), g, noPipeline);
    assert !HasLeaked(ONE_TABLE, h.past.past, f);
    HolderAfterReuse(f, g, noPipeline);
  }

  lemma HolderAfterReuse(f: FlowId, g: FlowId, noPipeline: bool)
    requires var h := Reused(f, g, noPipeline);
             && After(ONE_TABLE, h.past.past.past) == Example(NO_BOOKS, map[])
             && After(ONE_TABLE, h.past.past) == Example(NO_BOOKS.With(f), EntryOf(f, false))
             && DeletesEntry(ONE_TABLE, After(ONE_TABLE, h.past.past), h.past.event, f)
             && !HasLeaked(ONE_TABLE, h.past.past, f)
    ensures Holder(ONE_TABLE, Reused(f, g, noPipeline).past, Index(g)).None?
  {
    var h := Reused(f, g, noPipeline);
    assert Holder(ONE_TABLE, h.past.past.past, Index(g)).None?;
    assert h.past.event == HalfDelete(f);
    if Index(f) != Index(g) {
      assert Holder(ONE_TABLE, h.past.past, Index(g)).None?;
    }
  }

  /** A delete that fails after its table entry went, retried once the handle has been handed out
      again, takes away the entry of another flow that nobody deleted. */
  lemma RetriedDeleteHitsAnother(f: FlowId, g: FlowId)
    requires f != g
    ensures var h := Reused(f, g, true);
            && Sound(ONE_TABLE, h) && Disciplined(ONE_TABLE, h)
            && h.past.event == HalfDelete(f)
            && Step(ONE_TABLE, After(ONE_TABLE, h.past.past), h.past.event).error == Unknown
            && Answers(ONE_TABLE, After(ONE_TABLE, h), HalfDelete(f))
            && Live(ONE_TABLE, h, g) && Live(ONE_TABLE, Then(h, HalfDelete(f)), g)
            && var s := After(ONE_TABLE, Then(h, HalfDelete(f)));
               Where(s, g) !in s.plane.entries
  {
    ReusedStates(f, g, true);
    ReusedIsSound(f, g, true);
    ReusedIsDisciplined(f, g, true);
    HalfDeleteSteps(NO_BOOKS.With(f), EntryOf(f, false), f);
    HalfDeleteSteps(NO_BOOKS.With(f).With(g), EntryOf(g, false), f);
    StepLive(ONE_TABLE, Reused(f, g, true), HalfDelete(f), g);
  }

  /** And where the create of the other flow failed at the pipeline, the same retry takes the leaked
      entry: without the discipline a leak need not stay. */
  lemma {:induction false} RetriedDeleteTakesLeak(f: FlowId, g: FlowId)
    requires f != g
    ensures var h := Reused(f, g, false);
            && Sound(ONE_TABLE, h) && Disciplined(ONE_TABLE, h) && Leaked(ONE_TABLE, h, Loc(0, 5), g)
            && Loc(0, 5) in After(ONE_TABLE, h).plane.entries
            && Gone(ONE_TABLE, h, f)
            && Answers(ONE_TABLE, After(ONE_TABLE, h), HalfDelete(f))
            && Loc(0, 5) !in After(ONE_TABLE, Then(h, HalfDelete(f))).plane.entries
  {
    ReusedStates(f, g, false);
    ReusedIsSound(f, g, false);
    ReusedIsDisciplined(f, g, false);
    HalfDeleteSteps(NO_BOOKS.With(f), EntryOf(g, true), f);
  }
}
