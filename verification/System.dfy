/** The dispatcher and the cache machine put together.

    A CPU that activates a task preloads the task's components, lets the component code run, evicts the
    components and only then unlocks the task.  The cache machine assumes that tasks loaded at the same
    time share no component; here nothing checks that, and the dispatcher's locking is proved to grant it.  */
module WholeSystem {
  import opened EventTypes
  import opened PagedMemory
  import D = Dispatch
  import DT = DispatchTheorems
  import M = CacheMachine
  import MP = CacheProofs
  import MT = CacheTheorems
  import MG = CacheGuarantees
  import MR = CacheResidency
  import MA = CacheAdmission

  datatype State = State(d: D.State, m: M.State)

  /** The components of a trigger, in the order in which preloadOSC and evictOSC take them. */
  function Needed(tr: Trigger): seq<nat> {
    [tr.osc] + tr.deps
  }

  /** The trigger names existing components, each of them once. */
  ghost predicate WellNamed(cfg: M.Config, tr: Trigger)
  {
    && (forall i :: 0 <= i < |Needed(tr)| ==> Needed(tr)[i] < |cfg.chunks|)
    && (forall i, j :: 0 <= i < j < |Needed(tr)| ==> Needed(tr)[i] != Needed(tr)[j])
  }

  ghost predicate Shape(cfg: M.Config, s: State)
  {
    D.Shape(s.d) && M.Shape(cfg, s.m) && |s.m.phase| == |s.d.pc|
  }

  // ----- steps of CPU c -----

  /** activateOSC starts to preload the task's components. */
  ghost predicate Preload(cfg: M.Config, s: State, s': State, c: nat)
    requires Shape(cfg, s) && c < |s.d.pc|
  {
    && s.d.pc[c].Activating? && s.m.phase[c].Idle?
    && var oscs := Needed(s.d.pc[c].task.trigger);
       && WellNamed(cfg, s.d.pc[c].task.trigger)
       && s' == s.(m := s.m.(phase := s.m.phase[c := M.Load(oscs, 0, false)], held := s.m.held[c := oscs], found := s.m.found[c := {}]))
  }

  /** Preloading, executing and evicting; component code runs while the dispatcher says so. */
  ghost predicate CacheStep(cfg: M.Config, s: State, s': State, c: nat, a: M.Action)
    requires Shape(cfg, s) && c < |s.d.pc|
  {
    && !a.DoBegin? && !a.DoFinish?
    && (a.DoWrite? || a.DoStartEvict? ==> s.d.pc[c].Running?)
    && M.Does(cfg, s.m, s'.m, c, a) && s'.d == s.d
  }

  /** All of the dispatcher but unlocking; a task runs when its components are loaded. */
  ghost predicate DispatchStep(cfg: M.Config, s: State, s': State, c: nat, a: D.Action)
    requires Shape(cfg, s) && c < |s.d.pc|
  {
    && !a.DoFinish?
    && (a.DoActivate? ==> s.m.phase[c].Executing?)
    && D.Does(s.d, s'.d, c, a) && s'.m == s.m
  }

  /** eventTaskFinished: evictOSC is done, unlockTask. */
  ghost predicate Unlock(cfg: M.Config, s: State, s': State, c: nat)
    requires Shape(cfg, s) && c < |s.d.pc|
  {
    D.Finish(s.d, s'.d, c) && M.Finish(cfg, s.m, s'.m, c)
  }

  datatype Action = DoPreload | OnCache(m: M.Action) | OnDispatcher(d: D.Action) | DoUnlock

  ghost predicate Does(cfg: M.Config, s: State, s': State, c: nat, a: Action)
    requires Shape(cfg, s) && c < |s.d.pc|
  {
    match a
    case DoPreload => Preload(cfg, s, s', c)
    case OnCache(m) => CacheStep(cfg, s, s', c, m)
    case OnDispatcher(d) => DispatchStep(cfg, s, s', c, d)
    case DoUnlock => Unlock(cfg, s, s', c)
  }

  ghost predicate Step(cfg: M.Config, s: State, s': State)
  {
    Shape(cfg, s) && exists c: nat, a: Action :: c < |s.d.pc| && Does(cfg, s, s', c, a)
  }

  ghost predicate IsRun(cfg: M.Config, run: seq<State>, cpus: nat)
  {
    && |run| > 0
    && D.Init(run[0].d, cpus) && M.Init(cfg, run[0].m) && |run[0].m.phase| == cpus
    && forall i :: 0 <= i < |run| - 1 ==> Step(cfg, run[i], run[i + 1])
  }

  // ----- the link -----

  /** A CPU whose cache phase is not idle is activating or running the task whose components it holds. */
  ghost predicate LinkedAt(cfg: M.Config, s: State, c: nat)
    requires Shape(cfg, s) && c < |s.d.pc|
  {
    && (!s.m.phase[c].Idle? ==>
          && (s.d.pc[c].Activating? || s.d.pc[c].Running?)
          && s.m.held[c] == Needed(s.d.pc[c].task.trigger))
    && (s.d.pc[c].Running? ==> s.m.phase[c].Executing? || s.m.phase[c].Evict?)
    && (s.d.pc[c].Activating? ==> !s.m.phase[c].Evict?)
  }

  ghost predicate Linked(cfg: M.Config, s: State)
    requires Shape(cfg, s)
  {
    forall c :: 0 <= c < |s.d.pc| ==> LinkedAt(cfg, s, c)
  }

  ghost predicate Good(cfg: M.Config, s: State, cpus: nat)
  {
    Shape(cfg, s) && DT.Good(s.d, cpus) && MT.Good(cfg, s.m) && Linked(cfg, s)
  }

  lemma {:induction false} NeededIsComponents(tr: Trigger, o: nat)
    ensures o in Needed(tr) <==> o in Components(tr)
  {
  }

  /** The dispatcher grants what the cache machine's Begin demands. */
  lemma {:induction false} PreloadIsBegin(cfg: M.Config, s: State, s': State, c: nat, cpus: nat)
    requires Good(cfg, s, cpus) && c < |s.d.pc| && Preload(cfg, s, s', c)
    ensures M.Begin(cfg, s.m, s'.m, c, Needed(s.d.pc[c].task.trigger)) && s'.d == s.d
  {
    var tr := s.d.pc[c].task.trigger;
    forall d, o | 0 <= d < |s.m.held| && o in Needed(tr) ensures o !in s.m.held[d] {
      assert LinkedAt(cfg, s, d) && MP.PhaseOk(cfg, s.m, d);
      if d != c && !s.m.phase[d].Idle? {
        assert Disjoint(tr, s.d.pc[d].task.trigger);
        NeededIsComponents(tr, o);
        NeededIsComponents(s.d.pc[d].task.trigger, o);
      }
    }
  }

  lemma {:induction false} ToCacheStep(cfg: M.Config, m: M.State, m': M.State, c: nat, a: M.Action)
    requires MT.Good(cfg, m) && c < |m.phase| && M.Does(cfg, m, m', c, a)
    ensures MT.Good(cfg, m') && |m'.phase| == |m.phase|
  {
    assert M.Step(cfg, m, m');
    MT.StepKeepsGood(cfg, m, m');
  }

  lemma {:induction false} ToDispatchStep(d: D.State, d': D.State, c: nat, a: D.Action, cpus: nat)
    requires DT.Good(d, cpus) && c < |d.pc| && D.Does(d, d', c, a)
    ensures DT.Good(d', cpus)
  {
    assert D.Step(d, d');
    DT.StepKeepsGood(d, d', cpus);
  }

  /** Both projections of a system step are steps of the two machines, or nothing. */
  lemma {:induction false} StepKeepsParts(cfg: M.Config, s: State, s': State, c: nat, a: Action, cpus: nat)
    requires Good(cfg, s, cpus) && c < |s.d.pc| && Does(cfg, s, s', c, a)
    ensures Shape(cfg, s') && DT.Good(s'.d, cpus) && MT.Good(cfg, s'.m)
  {
    match a
    case DoPreload =>
      PreloadIsBegin(cfg, s, s', c, cpus);
      ToCacheStep(cfg, s.m, s'.m, c, M.DoBegin(Needed(s.d.pc[c].task.trigger)));
    case OnCache(m) => ToCacheStep(cfg, s.m, s'.m, c, m);
    case OnDispatcher(d) => ToDispatchStep(s.d, s'.d, c, d, cpus);
    case DoUnlock =>
      ToDispatchStep(s.d, s'.d, c, D.DoFinish, cpus);
      ToCacheStep(cfg, s.m, s'.m, c, M.DoFinish);
  }

  lemma {:induction false} CacheTouchesOneCpu(cfg: M.Config, m: M.State, m': M.State, c: nat, a: M.Action)
    requires M.Shape(cfg, m) && c < |m.phase| && M.Does(cfg, m, m', c, a) && !a.DoBegin? && !a.DoFinish?
    ensures m'.held == m.held && |m'.phase| == |m.phase| && !m.phase[c].Idle? && !m'.phase[c].Idle?
    ensures forall d :: 0 <= d < |m.phase| && d != c ==> m'.phase[d] == m.phase[d]
    ensures m'.phase[c].Evict? ==> m.phase[c].Evict? || a.DoStartEvict?
    ensures m.phase[c].Executing? || m.phase[c].Evict? ==> m'.phase[c].Executing? || m'.phase[c].Evict?
  {
  }

  lemma {:induction false} DispatchTouchesOneCpu(d: D.State, d': D.State, c: nat, a: D.Action)
    requires D.Shape(d) && c < |d.pc| && D.Does(d, d', c, a) && !a.DoFinish?
    ensures |d'.pc| == |d.pc| && forall e :: 0 <= e < |d.pc| && e != c ==> d'.pc[e] == d.pc[e]
    ensures d.pc[c].Running? ==> d'.pc[c] == d.pc[c]
    ensures d.pc[c].Activating? ==> d'.pc[c] == d.pc[c] || (a.DoActivate? && d'.pc[c].Running? && d'.pc[c].task == d.pc[c].task)
    ensures d'.pc[c].Running? ==> d.pc[c].Running? || a.DoActivate?
    ensures a.DoActivate? ==> d.pc[c].Activating?
  {
  }

  lemma {:induction false} StepKeepsLink(cfg: M.Config, s: State, s': State, c: nat, a: Action, e: nat)
    requires Shape(cfg, s) && Linked(cfg, s) && c < |s.d.pc| && Does(cfg, s, s', c, a) && Shape(cfg, s') && e < |s.d.pc|
    ensures e < |s'.d.pc| && LinkedAt(cfg, s', e)
  {
    assert LinkedAt(cfg, s, c) && LinkedAt(cfg, s, e);
    match a
    case DoPreload =>
    case OnCache(m) => CacheTouchesOneCpu(cfg, s.m, s'.m, c, m);
    case OnDispatcher(d) => DispatchTouchesOneCpu(s.d, s'.d, c, d);
    case DoUnlock =>
  }

  lemma {:induction false} StepKeepsGood(cfg: M.Config, s: State, s': State, cpus: nat)
    requires Good(cfg, s, cpus) && Step(cfg, s, s')
    ensures Good(cfg, s', cpus)
  {
    var c: nat, a: Action :| c < |s.d.pc| && Does(cfg, s, s', c, a);
    StepKeepsParts(cfg, s, s', c, a, cpus);
    forall e | 0 <= e < |s'.d.pc| ensures LinkedAt(cfg, s', e) {
      StepKeepsLink(cfg, s, s', c, a, e);
    }
  }

  lemma {:induction false} RunIsGood(cfg: M.Config, run: seq<State>, cpus: nat, k: nat)
    requires IsRun(cfg, run, cpus) && k < |run|
    ensures Good(cfg, run[k], cpus)
  {
    if k == 0 {
      DT.InitIsGood(run[0].d, cpus);
      MT.InitIsGood(cfg, run[0].m);
    } else {
      RunIsGood(cfg, run, cpus, k - 1);
      assert Step(cfg, run[k - 1], run[k - 1 + 1]);
      StepKeepsGood(cfg, run[k - 1], run[k], cpus);
    }
  }

  // ----- the theorems -----

  /** While component code of a task runs on CPU d, what any other CPU does, be it dispatching, loading,
      running or evicting, neither moves nor changes a page of the task's components. */
  lemma {:induction false} RunningTaskOwnsItsMemory(cfg: M.Config, run: seq<State>, cpus: nat, k: nat, c: nat, a: Action,
                                                    d: nat, id: M.ChunkId, v: nat)
    requires IsRun(cfg, run, cpus) && k + 1 < |run|
    requires Shape(cfg, run[k]) && c < |run[k].d.pc| && Does(cfg, run[k], run[k + 1], c, a)
    requires d < |run[k].d.pc| && d != c && run[k].d.pc[d].Running? && run[k].m.phase[d].Executing?
    requires id.osc in Needed(run[k].d.pc[d].task.trigger) && M.InChunk(cfg, id, v)
    ensures var m, m' := run[k].m.mem, run[k + 1].m.mem;
            && v < |m.frameOf| == |m'.frameOf| && Mapped(m) && Mapped(m')
            && m'.frameOf[v] == m.frameOf[v] && See(m', v) == See(m, v)
  {
    RunIsGood(cfg, run, cpus, k);
    var s, s' := run[k], run[k + 1];
    assert LinkedAt(cfg, s, d);
    match a
    case DoPreload =>
      PreloadIsBegin(cfg, s, s', c, cpus);
      MG.ExecutionIsUndisturbed(cfg, s.m, s'.m, c, M.DoBegin(Needed(s.d.pc[c].task.trigger)), d, id, v);
    case OnCache(m) => MG.ExecutionIsUndisturbed(cfg, s.m, s'.m, c, m, d, id, v);
    case OnDispatcher(_) =>
    case DoUnlock => MG.ExecutionIsUndisturbed(cfg, s.m, s'.m, c, M.DoFinish, d, id, v);
  }

  /** A task that runs has every chunk of its components recorded in a way of its own that is in use. */
  lemma {:induction false} RunningTaskHasItsWays(cfg: M.Config, run: seq<State>, cpus: nat, k: nat, c: nat, id: M.ChunkId) returns (w: nat)
    requires IsRun(cfg, run, cpus) && k < |run|
    requires Shape(cfg, run[k]) && c < |run[k].d.pc| && run[k].d.pc[c].Running? && run[k].m.phase[c].Executing?
    requires M.IsChunk(cfg, id) && id.osc in Needed(run[k].d.pc[c].task.trigger)
    ensures w < |run[k].m.ways|
    ensures var way := run[k].m.ways[w]; way.record == Some(id) && way.inUse && way.user == c && !way.locked
  {
    RunIsGood(cfg, run, cpus, k);
    var m := run[k].m;
    assert LinkedAt(cfg, run[k], c) && MT.SlotOk(cfg, m, c, id);
    w := m.slot[id];
    assert MP.WayOk(cfg, m, w);
  }

  // ----- the cache machine's run within a run of the system -----

  datatype Event = Event(cpu: nat, action: Action)

  ghost predicate Trace(cfg: M.Config, run: seq<State>, cpus: nat, events: seq<Event>)
  {
    && |run| == |events| + 1
    && D.Init(run[0].d, cpus) && M.Init(cfg, run[0].m) && |run[0].m.phase| == cpus
    && forall i :: 0 <= i < |events| ==>
         Shape(cfg, run[i]) && events[i].cpu < |run[i].d.pc|
         && Does(cfg, run[i], run[i + 1], events[i].cpu, events[i].action)
  }

  lemma {:induction false} TraceIsRun(cfg: M.Config, run: seq<State>, cpus: nat, events: seq<Event>)
    requires Trace(cfg, run, cpus, events)
    ensures IsRun(cfg, run, cpus)
  {
    forall i | 0 <= i < |run| - 1 ensures Step(cfg, run[i], run[i + 1]) {
      assert Does(cfg, run[i], run[i + 1], events[i].cpu, events[i].action);
    }
  }

  /** What an event of the system is for the cache machine; the dispatcher's own steps are nothing. */
  function CacheEvent(s: State, e: Event): seq<MG.Event> {
    match e.action
    case DoPreload =>
      if e.cpu < |s.d.pc| && s.d.pc[e.cpu].Activating? then [MG.Event(e.cpu, M.DoBegin(Needed(s.d.pc[e.cpu].task.trigger)))] else []
    case OnCache(m) => [MG.Event(e.cpu, m)]
    case OnDispatcher(_) => []
    case DoUnlock => [MG.Event(e.cpu, M.DoFinish)]
  }

  function CacheEvents(run: seq<State>, events: seq<Event>, k: nat): seq<MG.Event>
    requires k <= |events| && |run| == |events| + 1
  {
    if k == 0 then [] else CacheEvents(run, events, k - 1) + CacheEvent(run[k - 1], events[k - 1])
  }

  lemma {:induction false} CacheSeesStep(cfg: M.Config, s: State, s': State, e: Event, cpus: nat)
    requires Good(cfg, s, cpus) && e.cpu < |s.d.pc| && Does(cfg, s, s', e.cpu, e.action)
    ensures CacheEvent(s, e) == [] ==> s'.m == s.m
    ensures CacheEvent(s, e) != [] ==>
              |CacheEvent(s, e)| == 1 && CacheEvent(s, e)[0].cpu == e.cpu && M.Does(cfg, s.m, s'.m, e.cpu, CacheEvent(s, e)[0].action)
  {
    if e.action.DoPreload? {
      PreloadIsBegin(cfg, s, s', e.cpu, cpus);
    }
  }

  lemma {:induction false} AppendEvent(cfg: M.Config, cacheRun: seq<M.State>, events: seq<MG.Event>, s': M.State, e: MG.Event)
    requires MG.Trace(cfg, cacheRun, events)
    requires var s := cacheRun[|cacheRun| - 1]; M.Shape(cfg, s) && e.cpu < |s.phase| && M.Does(cfg, s, s', e.cpu, e.action)
    ensures MG.Trace(cfg, cacheRun + [s'], events + [e])
  {
    var run, all := cacheRun + [s'], events + [e];
    forall i | 0 <= i < |all|
      ensures M.Shape(cfg, run[i]) && all[i].cpu < |run[i].phase| && M.Does(cfg, run[i], run[i + 1], all[i].cpu, all[i].action)
    {
      if i < |events| {
        assert run[i] == cacheRun[i] && run[i + 1] == cacheRun[i + 1] && all[i] == events[i];
      }
    }
  }

  /** cacheRun is the cache part of the run up to state k, without the repeated states; `at` says where its
      states come from. */
  ghost predicate CachePart(cfg: M.Config, run: seq<State>, events: seq<Event>, k: nat, cacheRun: seq<M.State>, at: seq<nat>)
    requires k <= |events| && |run| == |events| + 1
  {
    && MG.Trace(cfg, cacheRun, CacheEvents(run, events, k))
    && |cacheRun| == |at| && cacheRun[0] == run[0].m && cacheRun[|cacheRun| - 1] == run[k].m
    && forall i :: 0 <= i < |at| ==> at[i] <= k && cacheRun[i] == run[at[i]].m
  }

  /** A step that the cache machine does not see. */
  lemma {:induction false} ProjectQuiet(cfg: M.Config, run: seq<State>, events: seq<Event>, k: nat, cacheRun: seq<M.State>, at: seq<nat>)
    requires k < |events| && |run| == |events| + 1 && CachePart(cfg, run, events, k, cacheRun, at)
    requires CacheEvent(run[k], events[k]) == [] && run[k + 1].m == run[k].m
    ensures CachePart(cfg, run, events, k + 1, cacheRun, at)
  {
    assert CacheEvents(run, events, k + 1) == CacheEvents(run, events, k);
  }

  /** A step of the cache machine. */
  lemma {:induction false} ProjectLoud(cfg: M.Config, run: seq<State>, events: seq<Event>, k: nat, cacheRun: seq<M.State>, at: seq<nat>,
                                       e: MG.Event)
    requires k < |events| && |run| == |events| + 1 && CachePart(cfg, run, events, k, cacheRun, at)
    requires CacheEvent(run[k], events[k]) == [e]
    requires M.Shape(cfg, run[k].m) && e.cpu < |run[k].m.phase| && M.Does(cfg, run[k].m, run[k + 1].m, e.cpu, e.action)
    ensures CachePart(cfg, run, events, k + 1, cacheRun + [run[k + 1].m], at + [k + 1])
  {
    AppendEvent(cfg, cacheRun, CacheEvents(run, events, k), run[k + 1].m, e);
    assert CacheEvents(run, events, k + 1) == CacheEvents(run, events, k) + [e];
  }

  /** What the cache machine sees of step k. */
  ghost predicate Seen(cfg: M.Config, run: seq<State>, events: seq<Event>, k: nat)
    requires k < |events| && |run| == |events| + 1
  {
    var now := CacheEvent(run[k], events[k]);
    if now == [] then run[k + 1].m == run[k].m
    else
      && |now| == 1 && M.Shape(cfg, run[k].m) && now[0].cpu < |run[k].m.phase|
      && M.Does(cfg, run[k].m, run[k + 1].m, now[0].cpu, now[0].action)
  }

  lemma {:induction false} StepIsSeen(cfg: M.Config, run: seq<State>, cpus: nat, events: seq<Event>, k: nat)
    requires Trace(cfg, run, cpus, events) && k < |events|
    ensures Seen(cfg, run, events, k)
  {
    TraceIsRun(cfg, run, cpus, events);
    RunIsGood(cfg, run, cpus, k);
    CacheSeesStep(cfg, run[k], run[k + 1], events[k], cpus);
  }

  lemma {:induction false} ProjectStep(cfg: M.Config, run: seq<State>, events: seq<Event>, k: nat, cacheRun: seq<M.State>, at: seq<nat>)
    returns (cacheRun': seq<M.State>, at': seq<nat>)
    requires k < |events| && |run| == |events| + 1 && CachePart(cfg, run, events, k, cacheRun, at) && Seen(cfg, run, events, k)
    ensures CachePart(cfg, run, events, k + 1, cacheRun', at')
  {
    var now := CacheEvent(run[k], events[k]);
    if now == [] {
      ProjectQuiet(cfg, run, events, k, cacheRun, at);
      cacheRun', at' := cacheRun, at;
    } else {
      assert now == [now[0]];
      ProjectLoud(cfg, run, events, k, cacheRun, at, now[0]);
      cacheRun', at' := cacheRun + [run[k + 1].m], at + [k + 1];
    }
  }

  lemma {:induction false} ProjectStart(cfg: M.Config, run: seq<State>, cpus: nat, events: seq<Event>)
    requires Trace(cfg, run, cpus, events)
    ensures CachePart(cfg, run, events, 0, [run[0].m], [0])
  {
  }

  /** Without the repeated states, the cache part of a run of the system is a run of the cache machine. */
  lemma {:induction false} Project(cfg: M.Config, run: seq<State>, cpus: nat, events: seq<Event>, k: nat)
    returns (cacheRun: seq<M.State>, at: seq<nat>)
    requires Trace(cfg, run, cpus, events) && k <= |events|
    ensures CachePart(cfg, run, events, k, cacheRun, at)
  {
    if k == 0 {
      ProjectStart(cfg, run, cpus, events);
      cacheRun, at := [run[0].m], [0];
    } else {
      var before, times := Project(cfg, run, cpus, events, k - 1);
      StepIsSeen(cfg, run, cpus, events, k - 1);
      cacheRun, at := ProjectStep(cfg, run, events, k - 1, before, times);
    }
  }

  // ----- the cache guarantees, for the whole system -----

  /** Whatever the system does, a component's page shows what it would show had no page ever been moved
      and had only the components' own writes happened. */
  lemma {:induction false} SystemMemoryTransparency(cfg: M.Config, run: seq<State>, cpus: nat, events: seq<Event>, k: nat, v: nat)
    requires Trace(cfg, run, cpus, events) && k <= |events| && M.Live(cfg, v)
    ensures v < |run[k].m.mem.frameOf| && run[k].m.mem.frameOf[v] < |run[k].m.mem.content| && v < |run[0].m.reference|
    ensures See(run[k].m.mem, v) == MG.PlainMemory(run[0].m.reference, CacheEvents(run, events, k))[v]
  {
    var cacheRun, at := Project(cfg, run, cpus, events, k);
    MG.MemoryTransparency(cfg, cacheRun, CacheEvents(run, events, k), |cacheRun| - 1, v);
    var cacheEvents := CacheEvents(run, events, k);
    assert cacheEvents[..|cacheRun| - 1] == cacheEvents;
  }

  /** If every choice of disjoint triggers for the CPUs fits into the non-critical ways, no CPU of the
      system ever stops for lack of a way. */
  lemma {:induction false} SystemAdmission(cfg: M.Config, run: seq<State>, cpus: nat, events: seq<Event>, k: nat, triggers: set<Trigger>)
    requires Trace(cfg, run, cpus, events) && k <= |events|
    requires forall i, c :: 0 <= i < |run| && 0 <= c < |run[i].d.active| && run[i].d.active[c].Some? ==>
               run[i].d.active[c].value.trigger in triggers
    requires MA.AlwaysFits(cfg, set tr | tr in triggers :: Needed(tr), cpus, MA.Unlocked(run[0].m.ways, |run[0].m.ways|))
    ensures MA.NobodyStuck(run[k].m)
  {
    var cacheRun, at := Project(cfg, run, cpus, events, k);
    MG.TraceIsRun(cfg, cacheRun, CacheEvents(run, events, k));
    var tasks := set tr | tr in triggers :: Needed(tr);
    forall i, c | 0 <= i < |cacheRun| && 0 <= c < |cacheRun[i].held| ensures cacheRun[i].held[c] == [] || cacheRun[i].held[c] in tasks {
      HeldIsActive(cfg, run, cpus, events, at[i], c);
    }
    MA.Admission(cfg, cacheRun, |cacheRun| - 1, tasks);
  }

  /** What a CPU holds in the cache machine are the components of its active task. */
  lemma {:induction false} HeldIsActive(cfg: M.Config, run: seq<State>, cpus: nat, events: seq<Event>, k: nat, c: nat)
    requires Trace(cfg, run, cpus, events) && k <= |events| && c < |run[k].m.held|
    ensures c < |run[k].d.active|
    ensures run[k].m.held[c] == [] || (run[k].d.active[c].Some? && run[k].m.held[c] == Needed(run[k].d.active[c].value.trigger))
  {
    TraceIsRun(cfg, run, cpus, events);
    RunIsGood(cfg, run, cpus, k);
    assert LinkedAt(cfg, run[k], c) && MP.PhaseOk(cfg, run[k].m, c);
  }

  /** A page of a running task is in the task's own way exactly if neither its chunk nor an earlier one of
      its component was found recorded when the task was activated; with eviction after use it always is. */
  lemma {:induction false} RunningTaskExecutesFromItsWays(cfg: M.Config, run: seq<State>, cpus: nat, events: seq<Event>, k: nat,
                                                          c: nat, id: M.ChunkId, v: nat)
    returns (w: nat)
    requires Trace(cfg, run, cpus, events) && k <= |events|
    requires Shape(cfg, run[k]) && c < |run[k].d.pc| && run[k].d.pc[c].Running? && run[k].m.phase[c].Executing?
    requires id.osc in Needed(run[k].d.pc[c].task.trigger) && M.InChunk(cfg, id, v)
    ensures w < |run[k].m.ways| == |cfg.placement| && v < |run[k].m.mem.frameOf| && c < |run[k].m.found|
    ensures run[k].m.ways[w].record == Some(id) && run[k].m.ways[w].inUse && run[k].m.ways[w].user == c
    ensures MR.InPlace(cfg, run[k].m, id, w, v) <==> !MR.Skipped(run[k].m, c, id)
    ensures cfg.evictAfterUse ==> MR.InPlace(cfg, run[k].m, id, w, v)
  {
    var cacheRun, at := Project(cfg, run, cpus, events, k);
    MG.TraceIsRun(cfg, cacheRun, CacheEvents(run, events, k));
    TraceIsRun(cfg, run, cpus, events);
    RunIsGood(cfg, run, cpus, k);
    assert LinkedAt(cfg, run[k], c);
    w := MR.ResidentUnlessSkipped(cfg, cacheRun, |cacheRun| - 1, c, id, v);
    if cfg.evictAfterUse {
      MR.RunFindsNothing(cfg, cacheRun, |cacheRun| - 1);
    }
  }
}
