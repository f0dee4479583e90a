/** Which pages of an executing component are in its cache ways: exactly those of the chunks before the
    first one that getLRUWay found recorded in this activation. */
module CacheResidency {
  import opened EventTypes
  import opened PagedMemory
  import opened CacheMachine
  import opened CacheProofs
  import opened CacheTheorems

  /** One of the component's first n chunks was found recorded in CPU c's current activation. */
  ghost predicate FoundBelow(s: State, c: nat, osc: nat, n: nat)
    requires c < |s.found|
  {
    exists j: nat :: j < n && ChunkId(osc, j) in s.found[c]
  }

  /** The chunk itself or an earlier one of its component was found recorded. */
  ghost predicate Skipped(s: State, c: nat, id: ChunkId)
    requires c < |s.found|
  {
    FoundBelow(s, c, id.osc, id.index + 1)
  }

  /** The chunk's pages before `limit` are in way w. */
  ghost predicate ResidentBelow(cfg: Config, s: State, id: ChunkId, w: nat, limit: nat)
  {
    forall v :: 0 <= v < |s.inWay| && InChunk(cfg, id, v) && v < limit ==> s.inWay[v] == Some(w)
  }

  ghost predicate Resident(cfg: Config, s: State, id: ChunkId, w: nat)
  {
    forall v :: 0 <= v < |s.inWay| && InChunk(cfg, id, v) ==> s.inWay[v] == Some(w)
  }

  // ----- the invariant -----

  /** CPU c has got way w from getLRUWay and has not recorded its chunk yet. */
  predicate WorksOn(s: State, c: nat, w: nat)
    requires c < |s.phase|
  {
    Working(s.phase[c]) && s.phase[c].way == w
  }

  /** A recorded chunk in use is a loaded one; until its eviction starts, its pages are in the way if it
      was not skipped, and nothing is in the way if it was.  Ways not in use hold nothing. */
  ghost predicate WayTracked(cfg: Config, s: State, w: nat)
    requires Shape(cfg, s) && w < |s.ways|
  {
    var way := s.ways[w];
    && (!way.locked && !way.inUse ==> way.content == None)
    && (way.inUse && way.record.Some? && way.user < |s.phase| && !s.phase[way.user].Stuck? && !WorksOn(s, way.user, w) ==>
          && Loaded(cfg, s, way.user, way.record.value)
          && (!s.phase[way.user].Evict? ==>
                && (way.content == None <==> Skipped(s, way.user, way.record.value))
                && (way.content.Some? ==> Resident(cfg, s, way.record.value, w))))
  }

  /** Chunks found in this activation are loaded ones, or the current one. */
  ghost predicate FoundOk(s: State, c: nat)
    requires c < |s.phase| == |s.found|
  {
    forall id :: id in s.found[c] ==>
      match s.phase[c]
      case Load(todo, index, _) => id.osc !in todo || (id.osc == todo[0] && id.index < index)
      case Fill(todo, index, _, _) => id.osc !in todo || (id.osc == todo[0] && id.index < index)
      case Recording(todo, index, _, _) => id.osc !in todo || (id.osc == todo[0] && id.index <= index)
      case _ => true
  }

  ghost predicate PhaseTracked(cfg: Config, s: State, c: nat)
    requires Shape(cfg, s) && c < |s.phase|
  {
    && FoundOk(s, c)
    && match s.phase[c]
       case Load(todo, index, skip) => todo != [] ==> (skip <==> FoundBelow(s, c, todo[0], index))
       case Fill(todo, index, w, k) =>
         && todo != [] && !FoundBelow(s, c, todo[0], index + 1)
         && ResidentBelow(cfg, s, ChunkId(todo[0], index), w, ChunkOfOr(cfg, ChunkId(todo[0], index)).first + k)
       case Recording(todo, index, w, skip) =>
         && todo != [] && w < |s.ways| && (skip <==> FoundBelow(s, c, todo[0], index + 1))
         && (s.ways[w].content == None <==> skip)
         && (!skip ==> Resident(cfg, s, ChunkId(todo[0], index), w))
       case _ => true
  }

  ghost predicate Tracked(cfg: Config, s: State)
    requires Shape(cfg, s)
  {
    && (forall w :: 0 <= w < |s.ways| ==> WayTracked(cfg, s, w))
    && (forall c :: 0 <= c < |s.phase| ==> PhaseTracked(cfg, s, c))
  }

  /** A chunk is found recorded only in a way that is not in use, and holds nothing. */
  lemma {:induction false} FoundWayIsEmpty(cfg: Config, s: State, s': State, c: nat, w: nat)
    requires Good(cfg, s) && Tracked(cfg, s) && c < |s.phase| && Hit(cfg, s, s', c, w)
    ensures !s.ways[w].inUse && s.ways[w].content == None
  {
    ChoiceIsOwn(cfg, s, s', c, DoHit(w));
    assert WayTracked(cfg, s, w) && WayOk(cfg, s, w) && PhaseOk(cfg, s, c);
  }

  /** A page stays in a way in use, unless the way's own CPU evicts it. */
  lemma {:induction false} PageStays(cfg: Config, s: State, s': State, c: nat, a: Action, id: ChunkId, w: nat, v: nat)
    requires Good(cfg, s) && c < |s.phase| && Does(cfg, s, s', c, a) && w < |s.ways|
    requires s.ways[w].inUse && s.ways[w].content == Some(id) && (s.ways[w].user == c ==> !s.phase[c].Evict?)
    requires v < |s.inWay| && InChunk(cfg, id, v) && s.inWay[v] == Some(w)
    ensures |s'.inWay| == |s.inWay| && s'.inWay[v] == Some(w)
  {
    assert WayOk(cfg, s, w) && PhaseOk(cfg, s, c) && PhaseOk(cfg, s, s.ways[w].user);
    if a.DoMiss? {
      assert WayOk(cfg, s, a.w);
    }
  }

  lemma {:induction false} KeepsResident(cfg: Config, s: State, s': State, c: nat, a: Action, id: ChunkId, w: nat)
    requires Good(cfg, s) && c < |s.phase| && Does(cfg, s, s', c, a) && w < |s.ways|
    requires s.ways[w].inUse && s.ways[w].content == Some(id) && (s.ways[w].user == c ==> !s.phase[c].Evict?)
    requires Resident(cfg, s, id, w)
    ensures |s'.inWay| == |s.inWay| && Resident(cfg, s', id, w)
  {
    StepKeepsShape(cfg, s, s', c, a);
    forall v | 0 <= v < |s'.inWay| && InChunk(cfg, id, v) ensures s'.inWay[v] == Some(w) {
      PageStays(cfg, s, s', c, a, id, w, v);
    }
  }

  // ----- phases -----

  /** What a step leaves alone about the other CPUs. */
  lemma {:induction false} OthersStay(cfg: Config, s: State, s': State, c: nat, a: Action, d: nat)
    requires Good(cfg, s) && c < |s.phase| && Does(cfg, s, s', c, a) && d < |s.phase| && d != c
    ensures |s'.phase| == |s.phase| == |s'.held| == |s'.found|
    ensures s'.phase[d] == s.phase[d] && s'.held[d] == s.held[d] && s'.found[d] == s.found[d]
  {
  }

  /** Another CPU's step leaves alone a way that d works on. */
  lemma {:induction false} WorkStays(cfg: Config, s: State, s': State, c: nat, a: Action, d: nat)
    requires Good(cfg, s) && c < |s.phase| && Does(cfg, s, s', c, a) && d < |s.phase| && d != c && Working(s.phase[d])
    ensures |s'.ways| == |s.ways| && s.phase[d].way < |s.ways|
    ensures s'.ways[s.phase[d].way].content == s.ways[s.phase[d].way].content
  {
    assert PhaseOk(cfg, s, c) && PhaseOk(cfg, s, d);
  }

  lemma {:induction false} OtherPhaseTracked(cfg: Config, s: State, s': State, c: nat, a: Action, d: nat)
    requires Good(cfg, s) && Tracked(cfg, s) && c < |s.phase| && Does(cfg, s, s', c, a) && Shape(cfg, s')
    requires d < |s.phase| && d != c
    ensures d < |s'.phase| && PhaseTracked(cfg, s', d)
  {
    OthersStay(cfg, s, s', c, a, d);
    assert PhaseOk(cfg, s, d) && PhaseTracked(cfg, s, d);
    if Working(s.phase[d]) {
      WorkStays(cfg, s, s', c, a, d);
      var w, id := s.phase[d].way, CurrentId(s.phase[d]);
      forall v | 0 <= v < |s'.inWay| && 0 <= v < |s.inWay| && InChunk(cfg, id, v) && s.inWay[v] == Some(w)
        && s.ways[w].content.Some?
        ensures s'.inWay[v] == Some(w)
      {
        PageStays(cfg, s, s', c, a, id, w, v);
      }
    }
  }

  lemma {:induction false} OwnTakeTracked(cfg: Config, s: State, s': State, c: nat, a: Action)
    requires Good(cfg, s) && Tracked(cfg, s) && c < |s.phase| && Does(cfg, s, s', c, a) && Shape(cfg, s')
    requires a.DoHit? || a.DoMiss?
    ensures c < |s'.phase| && PhaseTracked(cfg, s', c)
  {
    assert PhaseOk(cfg, s, c) && PhaseTracked(cfg, s, c);
    if a.DoHit? {
      FoundWayIsEmpty(cfg, s, s', c, a.w);
      var Load(todo, index, skip) := s.phase[c];
      assert ChunkId(todo[0], index) in s'.found[c];
    } else {
      SkipExtends(s, c, s.phase[c].todo, s.phase[c].index);
    }
  }

  /** The current chunk itself has not been found before. */
  lemma {:induction false} SkipExtends(s: State, c: nat, todo: seq<nat>, index: nat)
    requires c < |s.phase| == |s.found| && FoundOk(s, c) && s.phase[c].Load? && s.phase[c].todo == todo && s.phase[c].index == index
    requires todo != []
    ensures FoundBelow(s, c, todo[0], index) <==> FoundBelow(s, c, todo[0], index + 1)
  {
    if FoundBelow(s, c, todo[0], index + 1) {
      var j: nat :| j < index + 1 && ChunkId(todo[0], j) in s.found[c];
      assert j < index;
    }
  }

  lemma {:induction false} OwnOtherTracked(cfg: Config, s: State, s': State, c: nat, a: Action)
    requires Good(cfg, s) && Tracked(cfg, s) && c < |s.phase| && Does(cfg, s, s', c, a) && Shape(cfg, s')
    requires !a.DoHit? && !a.DoMiss?
    ensures c < |s'.phase| && PhaseTracked(cfg, s', c)
  {
    assert PhaseOk(cfg, s, c) && PhaseTracked(cfg, s, c);
    if a.DoNextComponent? {
      TailAmong(cfg, s.phase[c].todo, s.held[c]);
    }
  }

  // ----- ways -----

  /** A recorded way in use after a step, other than the one recorded by it, was so before. */
  lemma {:induction false} UsedBefore(cfg: Config, s: State, s': State, c: nat, a: Action, w: nat)
    requires Good(cfg, s) && Tracked(cfg, s) && c < |s.phase| && Does(cfg, s, s', c, a) && !a.DoRecord? && !a.DoHit?
    requires w < |s.ways| == |s'.ways| && s'.ways[w].inUse && s'.ways[w].record.Some?
    ensures s.ways[w].inUse && s'.ways[w].record == s.ways[w].record && s'.ways[w].user == s.ways[w].user < |s.phase|
    ensures s'.ways[w].content == s.ways[w].content || (s.phase[c].Evict? && s.ways[w].user == c)
    ensures a.DoFree? && s.ways[w].user == c ==> s.ways[w].record.value.osc != s.phase[c].todo[0]
    ensures s.ways[w].user == c && s.phase[c].Evict? ==> a.DoEvictPage? || a.DoNextWay? || a.DoFree?
  {
    assert PhaseOk(cfg, s, c) && WayOk(cfg, s, w);
  }

  lemma {:induction false} KeepsLoaded(cfg: Config, s: State, s': State, c: nat, a: Action, id: ChunkId)
    requires Good(cfg, s) && c < |s.phase| && Does(cfg, s, s', c, a) && Loaded(cfg, s, c, id)
    requires !a.DoRecord? && !a.DoStuck? && !a.DoFinish? && !a.DoBegin? && (a.DoFree? ==> id.osc != s.phase[c].todo[0])
    requires !a.DoHit?
    ensures |s'.phase| == |s.phase| == |s'.held| && Loaded(cfg, s', c, id) && s'.found == s.found
    ensures s'.phase[c].Evict? || !s.phase[c].Evict?
  {
    assert PhaseOk(cfg, s, c);
    if a.DoNextComponent? {
      TailAmong(cfg, s.phase[c].todo, s.held[c]);
    }
  }

  /** Ways not in use hold nothing. */
  lemma {:induction false} UnusedIsEmpty(cfg: Config, s: State, s': State, c: nat, a: Action, w: nat)
    requires Good(cfg, s) && Tracked(cfg, s) && c < |s.phase| && Does(cfg, s, s', c, a)
    requires w < |s.ways| == |s'.ways| && !s'.ways[w].locked && !s'.ways[w].inUse
    ensures s'.ways[w].content == None
  {
    assert WayTracked(cfg, s, w) && EvictOk(cfg, s, c) && WayOk(cfg, s, w) && PhaseOk(cfg, s, c);
  }

  lemma {:induction false} OwnUsedTracked(cfg: Config, s: State, s': State, c: nat, a: Action, w: nat)
    requires Good(cfg, s) && Tracked(cfg, s) && c < |s.phase| && Does(cfg, s, s', c, a) && Shape(cfg, s')
    requires w < |s.ways| == |s'.ways| && !a.DoRecord? && !a.DoHit?
    requires s'.ways[w].inUse && s'.ways[w].record.Some? && s'.ways[w].user == c
    requires !s'.phase[c].Stuck? && !WorksOn(s', c, w)
    ensures WayTracked(cfg, s', w)
  {
    UsedBefore(cfg, s, s', c, a, w);
    var id := s.ways[w].record.value;
    assert WayTracked(cfg, s, w) && WayOk(cfg, s, w) && PhaseOk(cfg, s, c);
    KeepsLoaded(cfg, s, s', c, a, id);
    if s.ways[w].content.Some? && !s'.phase[c].Evict? {
      KeepsResident(cfg, s, s', c, a, id, w);
    }
  }

  lemma {:induction false} OtherUsedTracked(cfg: Config, s: State, s': State, c: nat, a: Action, w: nat)
    requires Good(cfg, s) && Tracked(cfg, s) && c < |s.phase| && Does(cfg, s, s', c, a) && Shape(cfg, s')
    requires w < |s.ways| == |s'.ways| && !a.DoRecord? && !a.DoHit?
    requires s'.ways[w].inUse && s'.ways[w].record.Some? && s'.ways[w].user < |s'.phase| && s'.ways[w].user != c
    requires !s'.phase[s'.ways[w].user].Stuck? && !WorksOn(s', s'.ways[w].user, w)
    ensures WayTracked(cfg, s', w)
  {
    UsedBefore(cfg, s, s', c, a, w);
    var id, d := s.ways[w].record.value, s.ways[w].user;
    OthersStay(cfg, s, s', c, a, d);
    assert WayTracked(cfg, s, w) && WayOk(cfg, s, w);
    OtherKeepsResident(cfg, s, s', c, a, id, w);
  }

  lemma {:induction false} OtherKeepsResident(cfg: Config, s: State, s': State, c: nat, a: Action, id: ChunkId, w: nat)
    requires Good(cfg, s) && c < |s.phase| && Does(cfg, s, s', c, a) && w < |s.ways| && s.ways[w].inUse && s.ways[w].user != c
    ensures s.ways[w].content == Some(id) && Resident(cfg, s, id, w) ==> Resident(cfg, s', id, w)
  {
    if s.ways[w].content == Some(id) && Resident(cfg, s, id, w) {
      KeepsResident(cfg, s, s', c, a, id, w);
    }
  }

  /** Finding the current chunk says nothing about loaded ones. */
  lemma {:induction false} FoundLater(cfg: Config, s: State, s': State, c: nat, w: nat, id: ChunkId)
    requires Shape(cfg, s) && c < |s.phase| && Hit(cfg, s, s', c, w) && Loaded(cfg, s, c, id)
    ensures |s'.found| == |s.found| && (Skipped(s', c, id) <==> Skipped(s, c, id))
  {
    var now := ChunkId(s.phase[c].todo[0], s.phase[c].index);
    assert s'.found[c] == s.found[c] + {now};
    if Skipped(s, c, id) {
      var j: nat :| j < id.index + 1 && ChunkId(id.osc, j) in s.found[c];
      assert ChunkId(id.osc, j) in s'.found[c];
    }
  }

  lemma {:induction false} HitTracked(cfg: Config, s: State, s': State, c: nat, a: Action, w: nat)
    requires Good(cfg, s) && Tracked(cfg, s) && c < |s.phase| && Does(cfg, s, s', c, a) && Shape(cfg, s') && a.DoHit?
    requires w < |s.ways| == |s'.ways|
    ensures WayTracked(cfg, s', w)
  {
    assert PhaseOk(cfg, s, c) && WayTracked(cfg, s, w) && WayOk(cfg, s, w);
    if w != a.w && s.ways[w].inUse && s.ways[w].record.Some? {
      if s.ways[w].user == c {
        FoundLater(cfg, s, s', c, a.w, s.ways[w].record.value);
      } else {
        OthersStay(cfg, s, s', c, a, s.ways[w].user);
      }
    }
  }

  lemma {:induction false} RecordTracked(cfg: Config, s: State, s': State, c: nat, a: Action, w: nat)
    requires Good(cfg, s) && Tracked(cfg, s) && c < |s.phase| && Does(cfg, s, s', c, a) && Shape(cfg, s') && a.DoRecord?
    requires w < |s.ways| == |s'.ways|
    ensures WayTracked(cfg, s', w)
  {
    assert PhaseOk(cfg, s, c) && PhaseTracked(cfg, s, c) && WayTracked(cfg, s, w) && WayOk(cfg, s, w);
    assert s.phase[c].todo[0] in s.held[c];
  }

  lemma {:induction false} StepKeepsWayTracked(cfg: Config, s: State, s': State, c: nat, a: Action, w: nat)
    requires Good(cfg, s) && Tracked(cfg, s) && c < |s.phase| && Does(cfg, s, s', c, a) && Shape(cfg, s')
    requires w < |s.ways| == |s'.ways|
    ensures WayTracked(cfg, s', w)
  {
    if a.DoHit? {
      HitTracked(cfg, s, s', c, a, w);
    } else if a.DoRecord? {
      RecordTracked(cfg, s, s', c, a, w);
    } else {
      var way := s'.ways[w];
      if !way.inUse && !way.locked {
        UnusedIsEmpty(cfg, s, s', c, a, w);
      } else if way.inUse && way.record.Some? && way.user < |s'.phase| && !s'.phase[way.user].Stuck? && !WorksOn(s', way.user, w) {
        if way.user == c {
          OwnUsedTracked(cfg, s, s', c, a, w);
        } else {
          OtherUsedTracked(cfg, s, s', c, a, w);
        }
      }
    }
  }

  lemma {:induction false} StepKeepsTracked(cfg: Config, s: State, s': State)
    requires Good(cfg, s) && Tracked(cfg, s) && Step(cfg, s, s')
    ensures Shape(cfg, s') && Tracked(cfg, s')
  {
    var c: nat, a: Action :| c < |s.phase| && Does(cfg, s, s', c, a);
    StepKeepsShape(cfg, s, s', c, a);
    forall w | 0 <= w < |s'.ways| ensures WayTracked(cfg, s', w) {
      StepKeepsWayTracked(cfg, s, s', c, a, w);
    }
    forall d | 0 <= d < |s'.phase| ensures PhaseTracked(cfg, s', d) {
      if d != c {
        OtherPhaseTracked(cfg, s, s', c, a, d);
      } else if a.DoHit? || a.DoMiss? {
        OwnTakeTracked(cfg, s, s', c, a);
      } else {
        OwnOtherTracked(cfg, s, s', c, a);
      }
    }
  }

  lemma {:induction false} InitIsTracked(cfg: Config, s: State)
    requires Init(cfg, s)
    ensures Shape(cfg, s) && Tracked(cfg, s)
  {
  }

  lemma {:induction false} RunIsTracked(cfg: Config, run: seq<State>, k: nat)
    requires IsRun(cfg, run) && k < |run|
    ensures Shape(cfg, run[k]) && Tracked(cfg, run[k])
  {
    if k == 0 {
      InitIsTracked(cfg, run[0]);
    } else {
      RunIsTracked(cfg, run, k - 1);
      RunIsGood(cfg, run, k - 1);
      assert Step(cfg, run[k - 1], run[k - 1 + 1]);
      StepKeepsTracked(cfg, run[k - 1], run[k]);
    }
  }

  // ----- which pages are in their ways -----

  /** Page v is at its place in the frames of way w. */
  ghost predicate InPlace(cfg: Config, s: State, id: ChunkId, w: nat, v: nat)
    requires InChunk(cfg, id, v) && v < |s.mem.frameOf| && w < |cfg.placement|
  {
    var k := v - ChunkOf(cfg, id).first;
    k < |cfg.placement[w]| && s.mem.frameOf[v] == cfg.placement[w][k]
  }

  /** In every state of every run of every configuration: a chunk of a component that executes is
      recorded in a way that its CPU uses, and its pages are in that way if and only if neither the chunk
      nor an earlier one of its component was found recorded in this activation. */
  lemma {:induction false} ResidentUnlessSkipped(cfg: Config, run: seq<State>, k: nat, c: nat, id: ChunkId, v: nat) returns (w: nat)
    requires IsRun(cfg, run) && k < |run|
    requires c < |run[k].phase| == |run[k].held| && run[k].phase[c].Executing? && id.osc in run[k].held[c] && InChunk(cfg, id, v)
    ensures w < |run[k].ways| == |cfg.placement| && v < |run[k].mem.frameOf| && c < |run[k].found|
    ensures run[k].ways[w].record == Some(id) && run[k].ways[w].inUse && run[k].ways[w].user == c && !run[k].ways[w].locked
    ensures InPlace(cfg, run[k], id, w, v) <==> !Skipped(run[k], c, id)
  {
    RunIsGood(cfg, run, k);
    RunIsTracked(cfg, run, k);
    var s := run[k];
    assert SlotOk(cfg, s, c, id) && PageOk(cfg, s, v);
    w := s.slot[id];
    assert WayTracked(cfg, s, w) && WayOk(cfg, s, w);
    assert Live(cfg, v);
  }

  /** A way that holds a chunk and is not locked is in use, and records the chunk unless nobody does yet. */
  lemma {:induction false} HolderIsUsed(cfg: Config, s: State, x: nat, id: ChunkId)
    requires Good(cfg, s) && Tracked(cfg, s) && x < |s.ways| && s.ways[x].content == Some(id)
    ensures s.ways[x].locked || s.ways[x].record == Some(id) || NotRecorded(s, id)
  {
    assert WayTracked(cfg, s, x) && WayOk(cfg, s, x);
    if s.ways[x].inUse {
      assert PhaseOk(cfg, s, s.ways[x].user);
    }
  }

  /** A skipped page stays in its own frame, unless a locked way had it all along. */
  lemma {:induction false} SkippedStaysHome(cfg: Config, run: seq<State>, k: nat, c: nat, id: ChunkId, v: nat)
    requires IsRun(cfg, run) && k < |run|
    requires c < |run[k].phase| == |run[k].held| && run[k].phase[c].Executing? && id.osc in run[k].held[c] && InChunk(cfg, id, v)
    requires c < |run[k].found| && Skipped(run[k], c, id)
    ensures v < |run[k].mem.frameOf| && |run[k].ways| == |cfg.placement|
    ensures run[k].mem.frameOf[v] == v
            || exists x :: 0 <= x < |run[k].ways| && run[k].ways[x].locked && InPlace(cfg, run[k], id, x, v)
  {
    RunIsGood(cfg, run, k);
    RunIsTracked(cfg, run, k);
    var s := run[k];
    assert SlotOk(cfg, s, c, id) && PageOk(cfg, s, v) && Live(cfg, v);
    assert WayTracked(cfg, s, s.slot[id]) && WayOk(cfg, s, s.slot[id]);
    if s.inWay[v].Some? {
      var x := s.inWay[v].value;
      HolderIsUsed(cfg, s, x, id);
    }
  }

  // ----- with eviction after use -----

  /** Only ways in use have records, and nothing is ever found recorded. */
  ghost predicate NothingFound(s: State)
  {
    && (forall w :: 0 <= w < |s.ways| && s.ways[w].record.Some? ==> s.ways[w].inUse)
    && (forall c :: 0 <= c < |s.found| ==> s.found[c] == {})
  }

  lemma {:induction false} NoHit(cfg: Config, s: State, s': State, c: nat, a: Action)
    requires Good(cfg, s) && Tracked(cfg, s) && NothingFound(s) && c < |s.phase| && Does(cfg, s, s', c, a)
    ensures !a.DoHit?
  {
    if a.DoHit? {
      FoundWayIsEmpty(cfg, s, s', c, a.w);
    }
  }

  lemma {:induction false} RecordsStayUsed(cfg: Config, s: State, s': State, c: nat, a: Action)
    requires cfg.evictAfterUse && Shape(cfg, s) && c < |s.phase| && PhaseOk(cfg, s, c) && NothingFound(s)
    requires Does(cfg, s, s', c, a) && !a.DoHit?
    ensures NothingFound(s')
  {
  }

  lemma {:induction false} StepFindsNothing(cfg: Config, s: State, s': State)
    requires cfg.evictAfterUse && Good(cfg, s) && Tracked(cfg, s) && NothingFound(s) && Step(cfg, s, s')
    ensures NothingFound(s')
  {
    var c: nat, a: Action :| c < |s.phase| && Does(cfg, s, s', c, a);
    NoHit(cfg, s, s', c, a);
    RecordsStayUsed(cfg, s, s', c, a);
  }

  lemma {:induction false} RunFindsNothing(cfg: Config, run: seq<State>, k: nat)
    requires IsRun(cfg, run) && k < |run| && cfg.evictAfterUse
    ensures NothingFound(run[k])
  {
    if k > 0 {
      RunFindsNothing(cfg, run, k - 1);
      RunIsGood(cfg, run, k - 1);
      RunIsTracked(cfg, run, k - 1);
      assert Step(cfg, run[k - 1], run[k - 1 + 1]);
      StepFindsNothing(cfg, run[k - 1], run[k]);
    }
  }

  /** With eviction after use, every page of an executing component is in its place in a way that the
      CPU has for itself. */
  lemma {:induction false} ExecutesFromItsWays(cfg: Config, run: seq<State>, k: nat, c: nat, id: ChunkId, v: nat) returns (w: nat)
    requires IsRun(cfg, run) && k < |run| && cfg.evictAfterUse
    requires c < |run[k].phase| == |run[k].held| && run[k].phase[c].Executing? && id.osc in run[k].held[c] && InChunk(cfg, id, v)
    ensures w < |run[k].ways| == |cfg.placement| && v < |run[k].mem.frameOf|
    ensures run[k].ways[w].inUse && run[k].ways[w].user == c && run[k].ways[w].record == Some(id)
    ensures InPlace(cfg, run[k], id, w, v)
  {
    w := ResidentUnlessSkipped(cfg, run, k, c, id, v);
    RunFindsNothing(cfg, run, k);
  }
}
