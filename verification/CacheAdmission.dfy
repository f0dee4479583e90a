/** Cache admission: when the chunks of all running tasks fit into the unlocked ways, getLRUWay always
    finds a way, and preloading never blocks. */
module CacheAdmission {
  import opened EventTypes
  import opened PagedMemory
  import opened CacheMachine
  import opened CacheProofs
  import opened CacheTheorems
  import opened CacheRuns

  // ----- demand and supply -----

  function ChunkCount(cfg: Config, osc: nat): nat {
    if osc < |cfg.chunks| then |cfg.chunks[osc]| else 0
  }

  /** The ways a task needs: one per chunk of each of its components. */
  function TaskDemand(cfg: Config, oscs: seq<nat>): nat {
    if oscs == [] then 0 else ChunkCount(cfg, oscs[0]) + TaskDemand(cfg, oscs[1..])
  }

  /** The ways all tasks together need. */
  function Demand(cfg: Config, held: seq<seq<nat>>): nat {
    if held == [] then 0 else TaskDemand(cfg, held[0]) + Demand(cfg, held[1..])
  }

  /** The non-critical ways among the first n. */
  function Unlocked(ways: seq<Way>, n: nat): nat
    requires n <= |ways|
  {
    if n == 0 then 0 else Unlocked(ways, n - 1) + (if ways[n - 1].locked then 0 else 1)
  }

  // ----- the chunks of the running tasks -----

  function OscChunks(osc: nat, n: nat): set<ChunkId> {
    if n == 0 then {} else OscChunks(osc, n - 1) + {ChunkId(osc, n - 1)}
  }

  function TaskChunks(cfg: Config, oscs: seq<nat>): set<ChunkId> {
    if oscs == [] then {} else OscChunks(oscs[0], ChunkCount(cfg, oscs[0])) + TaskChunks(cfg, oscs[1..])
  }

  function AllChunks(cfg: Config, held: seq<seq<nat>>): set<ChunkId> {
    if held == [] then {} else TaskChunks(cfg, held[0]) + AllChunks(cfg, held[1..])
  }

  lemma {:induction false} OscChunksSize(osc: nat, n: nat)
    ensures |OscChunks(osc, n)| <= n
    ensures forall i :: 0 <= i < n ==> ChunkId(osc, i) in OscChunks(osc, n)
  {
    if n > 0 {
      OscChunksSize(osc, n - 1);
    }
  }

  lemma {:induction false} TaskChunksSize(cfg: Config, oscs: seq<nat>)
    ensures |TaskChunks(cfg, oscs)| <= TaskDemand(cfg, oscs)
    ensures forall id :: IsChunk(cfg, id) && id.osc in oscs ==> id in TaskChunks(cfg, oscs)
  {
    if oscs != [] {
      TaskChunksSize(cfg, oscs[1..]);
      OscChunksSize(oscs[0], ChunkCount(cfg, oscs[0]));
      UnionSize(OscChunks(oscs[0], ChunkCount(cfg, oscs[0])), TaskChunks(cfg, oscs[1..]));
      forall id | IsChunk(cfg, id) && id.osc in oscs ensures id in TaskChunks(cfg, oscs) {
        if id.osc == oscs[0] {
          assert id == ChunkId(oscs[0], id.index);
        } else {
          assert id.osc in oscs[1..];
        }
      }
    }
  }

  lemma {:induction false} AllChunksSize(cfg: Config, held: seq<seq<nat>>)
    ensures |AllChunks(cfg, held)| <= Demand(cfg, held)
    ensures forall c, id :: 0 <= c < |held| && IsChunk(cfg, id) && id.osc in held[c] ==> id in AllChunks(cfg, held)
  {
    if held != [] {
      AllChunksSize(cfg, held[1..]);
      TaskChunksSize(cfg, held[0]);
      UnionSize(TaskChunks(cfg, held[0]), AllChunks(cfg, held[1..]));
      forall c, id | 0 <= c < |held| && IsChunk(cfg, id) && id.osc in held[c] ensures id in AllChunks(cfg, held) {
        if c > 0 {
          assert held[c] == held[1..][c - 1];
        }
      }
    }
  }

  lemma {:induction false} UnionSize<T>(a: set<T>, b: set<T>)
    ensures |a + b| <= |a| + |b|
  {
    assert a + b == a + (b - a);
    SubsetSize(b - a, b);
  }

  lemma {:induction false} SubsetSize<T>(a: set<T>, b: set<T>)
    requires a <= b
    ensures |a| <= |b|
  {
    assert b == a + (b - a);
  }

  // ----- every way is in use -----

  /** What the unlocked ways among the first n are used for. */
  function Tags(ways: seq<Way>, n: nat): set<ChunkId>
    requires n <= |ways|
  {
    if n == 0 then {}
    else Tags(ways, n - 1) + (if ways[n - 1].locked then {} else {ways[n - 1].tag})
  }

  lemma {:induction false} TagOfSome(ways: seq<Way>, n: nat, id: ChunkId) returns (w: nat)
    requires n <= |ways| && id in Tags(ways, n)
    ensures w < n && !ways[w].locked && ways[w].tag == id
  {
    if !ways[n - 1].locked && ways[n - 1].tag == id {
      w := n - 1;
    } else {
      w := TagOfSome(ways, n - 1, id);
    }
  }

  /** No two ways are used for the same chunk. */
  lemma {:induction false} TagsDiffer(cfg: Config, s: State, w: nat, x: nat)
    requires Shape(cfg, s) && WaysOk(cfg, s) && w < |s.ways| && x < |s.ways| && w != x
    requires s.ways[w].inUse && s.ways[x].inUse
    ensures s.ways[w].tag != s.ways[x].tag
  {
    assert WayOk(cfg, s, w) && WayOk(cfg, s, x);
    assert PhaseOk(cfg, s, s.ways[w].user) && PhaseOk(cfg, s, s.ways[x].user);
  }

  lemma {:induction false} TagsSize(cfg: Config, s: State, n: nat)
    requires Shape(cfg, s) && WaysOk(cfg, s) && n <= |s.ways|
    requires forall w :: 0 <= w < |s.ways| ==> !Eligible(s.ways[w])
    ensures |Tags(s.ways, n)| == Unlocked(s.ways, n)
  {
    if n > 0 {
      TagsSize(cfg, s, n - 1);
      if !s.ways[n - 1].locked && s.ways[n - 1].tag in Tags(s.ways, n - 1) {
        var w := TagOfSome(s.ways, n - 1, s.ways[n - 1].tag);
        TagsDiffer(cfg, s, w, n - 1);
        assert false;
      }
    }
  }

  /** A chunk that is about to be loaded and is not recorded has no way yet. */
  lemma {:induction false} TagsAreOther(cfg: Config, s: State, c: nat, id: ChunkId, w: nat)
    requires Shape(cfg, s) && WaysOk(cfg, s) && c < |s.phase| && AtChunk(cfg, s, c)
    requires id == ChunkId(s.phase[c].todo[0], s.phase[c].index) && NotRecorded(s, id)
    requires w < |s.ways| && s.ways[w].inUse
    ensures s.ways[w].tag != id
  {
    assert WayOk(cfg, s, w) && PhaseOk(cfg, s, c) && PhaseOk(cfg, s, s.ways[w].user);
    assert id.osc in s.held[c];
  }

  /** As long as the running tasks' chunks fit the unlocked ways, getLRUWay finds the chunk recorded or
      finds a way to use. */
  lemma {:induction false} FindsAWay(cfg: Config, s: State, c: nat)
    requires Good(cfg, s) && c < |s.phase| && AtChunk(cfg, s, c)
    requires Demand(cfg, s.held) <= Unlocked(s.ways, |s.ways|)
    ensures !NotRecorded(s, ChunkId(s.phase[c].todo[0], s.phase[c].index))
            || exists w :: 0 <= w < |s.ways| && Eligible(s.ways[w])
  {
    var id := ChunkId(s.phase[c].todo[0], s.phase[c].index);
    if NotRecorded(s, id) && forall w :: 0 <= w < |s.ways| ==> !Eligible(s.ways[w]) {
      var tags, all := Tags(s.ways, |s.ways|), AllChunks(cfg, s.held);
      TagsSize(cfg, s, |s.ways|);
      AllChunksSize(cfg, s.held);
      assert PhaseOk(cfg, s, c);
      assert id in all && id.osc in s.held[c];
      forall t | t in tags ensures t in all && t != id {
        var w := TagOfSome(s.ways, |s.ways|, t);
        assert WayOk(cfg, s, w);
        TagsAreOther(cfg, s, c, id, w);
      }
      SubsetSize(tags + {id}, all);
      assert false;
    }
  }

  // ----- runs -----

  lemma {:induction false} LocksStay(cfg: Config, s: State, s': State, c: nat, a: Action)
    requires Shape(cfg, s) && c < |s.phase| && Does(cfg, s, s', c, a)
    ensures |s'.ways| == |s.ways| && forall w :: 0 <= w < |s.ways| ==> s'.ways[w].locked == s.ways[w].locked
  {
  }

  lemma {:induction false} SameUnlocked(ways: seq<Way>, ways': seq<Way>, n: nat)
    requires n <= |ways| == |ways'| && forall w :: 0 <= w < |ways| ==> ways'[w].locked == ways[w].locked
    ensures Unlocked(ways', n) == Unlocked(ways, n)
  {
    if n > 0 {
      SameUnlocked(ways, ways', n - 1);
    }
  }

  ghost predicate NobodyStuck(s: State)
  {
    forall c :: 0 <= c < |s.phase| ==> !s.phase[c].Stuck?
  }

  lemma {:induction false} StepKeepsRunning(cfg: Config, s: State, s': State)
    requires Good(cfg, s) && Step(cfg, s, s') && NobodyStuck(s)
    requires Demand(cfg, s.held) <= Unlocked(s.ways, |s.ways|)
    ensures NobodyStuck(s') && |s'.ways| == |s.ways| && Unlocked(s'.ways, |s'.ways|) == Unlocked(s.ways, |s.ways|)
  {
    var c: nat, a: Action :| c < |s.phase| && Does(cfg, s, s', c, a);
    LocksStay(cfg, s, s', c, a);
    SameUnlocked(s.ways, s'.ways, |s.ways|);
    if a.DoStuck? {
      FindsAWay(cfg, s, c);
      assert false;
    }
  }

  lemma {:induction false} RunStepKeepsRunning(cfg: Config, run: seq<State>, k: nat)
    requires IsRun(cfg, run) && k + 1 < |run| && NobodyStuck(run[k])
    requires Demand(cfg, run[k].held) <= Unlocked(run[k].ways, |run[k].ways|)
    ensures NobodyStuck(run[k + 1])
    ensures |run[k + 1].ways| == |run[k].ways|
    ensures Unlocked(run[k + 1].ways, |run[k + 1].ways|) == Unlocked(run[k].ways, |run[k].ways|)
  {
    RunIsGood(cfg, run, k);
    assert Step(cfg, run[k], run[k + 1]);
    StepKeepsRunning(cfg, run[k], run[k + 1]);
  }

  /** If at all times the chunks of the running tasks are at most as many as the non-critical ways, no
      CPU ever ends up without a way. */
  lemma {:induction false} NoAbort(cfg: Config, run: seq<State>, k: nat)
    requires IsRun(cfg, run) && k < |run|
    requires forall i :: 0 <= i < |run| ==> Demand(cfg, run[i].held) <= Unlocked(run[0].ways, |run[0].ways|)
    ensures NobodyStuck(run[k])
    ensures |run[k].ways| == |run[0].ways| && Unlocked(run[k].ways, |run[k].ways|) == Unlocked(run[0].ways, |run[0].ways|)
  {
    if k > 0 {
      NoAbort(cfg, run, k - 1);
      RunStepKeepsRunning(cfg, run, k - 1);
    }
  }

  // ----- a test before the start -----

  /** CPUs run tasks from the given ones, no component in two of them at once. */
  ghost predicate Assignment(tasks: set<seq<nat>>, held: seq<seq<nat>>)
  {
    && (forall c :: 0 <= c < |held| ==> held[c] == [] || held[c] in tasks)
    && (forall c, d, o :: 0 <= c < |held| && 0 <= d < |held| && c != d && o in held[c] ==> o !in held[d])
  }

  /** CPUs take their tasks from the given ones, in all states. */
  ghost predicate TakesOnly(run: seq<State>, tasks: set<seq<nat>>)
  {
    forall i, c :: 0 <= i < |run| && 0 <= c < |run[i].held| ==> run[i].held[c] == [] || run[i].held[c] in tasks
  }

  /** Whatever disjoint tasks run on the CPUs together, their chunks fit into the given number of ways. */
  ghost predicate AlwaysFits(cfg: Config, tasks: set<seq<nat>>, cpus: nat, ways: nat)
  {
    forall held: seq<seq<nat>> :: |held| == cpus && Assignment(tasks, held) ==> Demand(cfg, held) <= ways
  }

  lemma {:induction false} HeldIsAssignment(cfg: Config, run: seq<State>, k: nat, tasks: set<seq<nat>>)
    requires IsRun(cfg, run) && k < |run|
    requires forall c :: 0 <= c < |run[k].held| ==> run[k].held[c] == [] || run[k].held[c] in tasks
    ensures |run[k].held| == |run[0].phase| && Assignment(tasks, run[k].held)
  {
    RunIsGood(cfg, run, k);
  }

  /** The admission guarantee: if every set of disjoint tasks that the CPUs can run together fits into
      the non-critical ways, "did not find a free cache way" is never reached. */
  lemma {:induction false} Admission(cfg: Config, run: seq<State>, k: nat, tasks: set<seq<nat>>)
    requires IsRun(cfg, run) && k < |run|
    requires TakesOnly(run, tasks)
    requires AlwaysFits(cfg, tasks, |run[0].phase|, Unlocked(run[0].ways, |run[0].ways|))
    ensures NobodyStuck(run[k])
  {
    forall i | 0 <= i < |run| ensures Demand(cfg, run[i].held) <= Unlocked(run[0].ways, |run[0].ways|) {
      HeldIsAssignment(cfg, run, i, tasks);
    }
    NoAbort(cfg, run, k);
  }

  // ----- the converse: too large a demand leads to an abort -----

  lemma {:induction false} OscChunksCount(osc: nat, n: nat)
    ensures |OscChunks(osc, n)| == n
    ensures forall id :: id in OscChunks(osc, n) ==> id.osc == osc && id.index < n
  {
    if n > 0 {
      OscChunksCount(osc, n - 1);
    }
  }

  lemma {:induction false} DisjointUnion<T>(a: set<T>, b: set<T>)
    requires a !! b
    ensures |a + b| == |a| + |b|
  {
  }

  lemma {:induction false} TaskChunksCount(cfg: Config, oscs: seq<nat>)
    requires forall i, j :: 0 <= i < j < |oscs| ==> oscs[i] != oscs[j]
    ensures |TaskChunks(cfg, oscs)| == TaskDemand(cfg, oscs)
    ensures forall id :: id in TaskChunks(cfg, oscs) ==> id.osc in oscs && IsChunk(cfg, id)
  {
    if oscs != [] {
      TaskChunksCount(cfg, oscs[1..]);
      OscChunksCount(oscs[0], ChunkCount(cfg, oscs[0]));
      DisjointUnion(OscChunks(oscs[0], ChunkCount(cfg, oscs[0])), TaskChunks(cfg, oscs[1..]));
    }
  }

  lemma {:induction false} AllChunksCount(cfg: Config, held: seq<seq<nat>>)
    requires forall c, i, j :: 0 <= c < |held| && 0 <= i < j < |held[c]| ==> held[c][i] != held[c][j]
    requires forall c, d, o :: 0 <= c < |held| && 0 <= d < |held| && c != d && o in held[c] ==> o !in held[d]
    ensures |AllChunks(cfg, held)| == Demand(cfg, held)
    ensures forall id :: id in AllChunks(cfg, held) ==> IsChunk(cfg, id) && exists c :: 0 <= c < |held| && id.osc in held[c]
  {
    if held != [] {
      var rest := held[1..];
      assert forall c :: 0 <= c < |rest| ==> rest[c] == held[c + 1];
      AllChunksCount(cfg, rest);
      TaskChunksCount(cfg, held[0]);
      forall id | id in AllChunks(cfg, rest) ensures id !in TaskChunks(cfg, held[0]) && exists c :: 0 <= c < |held| && id.osc in held[c] {
        var c :| 0 <= c < |rest| && id.osc in rest[c];
        assert id.osc in held[c + 1];
      }
      forall id | id in TaskChunks(cfg, held[0]) ensures exists c :: 0 <= c < |held| && id.osc in held[c] {
        assert id.osc in held[0];
      }
      DisjointUnion(TaskChunks(cfg, held[0]), AllChunks(cfg, rest));
    }
  }

  /** What the unlocked ways among the first n record. */
  function RecordsOf(ways: seq<Way>, n: nat): set<ChunkId>
    requires n <= |ways|
  {
    if n == 0 then {}
    else RecordsOf(ways, n - 1) + (if !ways[n - 1].locked && ways[n - 1].record.Some? then {ways[n - 1].record.value} else {})
  }

  lemma {:induction false} RecordsOfSize(ways: seq<Way>, n: nat)
    requires n <= |ways|
    ensures |RecordsOf(ways, n)| <= Unlocked(ways, n)
    ensures forall w :: 0 <= w < n && !ways[w].locked && ways[w].record.Some? ==> ways[w].record.value in RecordsOf(ways, n)
  {
    if n > 0 {
      RecordsOfSize(ways, n - 1);
    }
  }

  /** Tasks that are all loaded fit. */
  lemma {:induction false} LoadedFits(cfg: Config, s: State)
    requires Good(cfg, s) && forall c :: 0 <= c < |s.phase| ==> s.phase[c].Executing? || s.held[c] == []
    ensures Demand(cfg, s.held) <= Unlocked(s.ways, |s.ways|)
  {
    forall c | 0 <= c < |s.held| ensures Among(cfg, s.held[c], s.held[c]) {
      assert PhaseOk(cfg, s, c);
    }
    AllChunksCount(cfg, s.held);
    RecordsOfSize(s.ways, |s.ways|);
    forall id | id in AllChunks(cfg, s.held) ensures id in RecordsOf(s.ways, |s.ways|) {
      var c :| 0 <= c < |s.held| && id.osc in s.held[c];
      assert SlotOk(cfg, s, c, id);
      assert WayOk(cfg, s, s.slot[id]);
    }
    SubsetSize(AllChunks(cfg, s.held), RecordsOf(s.ways, |s.ways|));
  }

  /** Tasks name existing components, each once. */
  ghost predicate ValidTasks(cfg: Config, tasks: set<seq<nat>>)
  {
    forall t :: t in tasks ==> t != [] && Among(cfg, t, t)
  }

  /** The first n CPUs execute their tasks, the others are idle. */
  ghost predicate Running(s: State, held: seq<seq<nat>>, n: nat)
  {
    && |s.phase| == |s.held| == |held| && n <= |held|
    && forall c :: 0 <= c < |held| ==>
         if c < n && held[c] != [] then s.phase[c].Executing? && s.held[c] == held[c]
         else s.phase[c].Idle? && s.held[c] == []
  }

  lemma {:induction false} TakesOnlyOn(run: seq<State>, longer: seq<State>, tasks: set<seq<nat>>)
    requires TakesOnly(run, tasks) && Continues(run, longer)
    ensures TakesOnly(longer, tasks)
  {
    forall i, c | 0 <= i < |longer| && 0 <= c < |longer[i].held| ensures longer[i].held[c] == [] || longer[i].held[c] in tasks {
      if i < |run| {
        assert longer[i] == run[i];
      } else {
        assert longer[i].held == run[|run| - 1].held;
      }
    }
  }

  /** CPU n begins its task and loads it. */
  lemma {:induction false} RunNext(cfg: Config, run: seq<State>, held: seq<seq<nat>>, tasks: set<seq<nat>>, n: nat) returns (longer: seq<State>)
    requires IsRun(cfg, run) && ValidTasks(cfg, tasks) && TakesOnly(run, tasks) && Assignment(tasks, held)
    requires n < |held| && held[n] != [] && Running(Last(run), held, n)
    ensures IsRun(cfg, longer) && TakesOnly(longer, tasks) && longer[0] == run[0]
    ensures !NobodyStuck(Last(longer)) || Running(Last(longer), held, n + 1)
  {
    var begun := BeginTask(cfg, run, n, held[n]);
    assert TakesOnly(begun, tasks);
    longer := LoadTask(cfg, begun, n);
    TakesOnlyOn(begun, longer, tasks);
    assert Last(longer).held == Last(begun).held;
    if Last(longer).phase[n].Stuck? {
      assert !NobodyStuck(Last(longer));
    }
  }

  /** The CPUs take up their tasks one after the other. */
  lemma {:induction false} RunTasks(cfg: Config, s: State, held: seq<seq<nat>>, tasks: set<seq<nat>>, n: nat) returns (run: seq<State>)
    requires Init(cfg, s) && ValidTasks(cfg, tasks) && Assignment(tasks, held) && |held| == |s.phase| && n <= |held|
    ensures IsRun(cfg, run) && TakesOnly(run, tasks) && run[0] == s
    ensures !NobodyStuck(Last(run)) || Running(Last(run), held, n)
  {
    if n == 0 {
      run := [s];
    } else {
      run := RunTasks(cfg, s, held, tasks, n - 1);
      if NobodyStuck(Last(run)) && held[n - 1] != [] {
        run := RunNext(cfg, run, held, tasks, n - 1);
      }
    }
  }

  lemma {:induction false} RunKeepsLocks(cfg: Config, run: seq<State>, k: nat)
    requires IsRun(cfg, run) && k < |run|
    ensures |run[k].ways| == |run[0].ways| && forall w :: 0 <= w < |run[k].ways| ==> run[k].ways[w].locked == run[0].ways[w].locked
  {
    if k > 0 {
      RunKeepsLocks(cfg, run, k - 1);
      assert Step(cfg, run[k - 1], run[k - 1 + 1]);
      var c: nat, a: Action :| c < |run[k - 1].phase| && Does(cfg, run[k - 1], run[k], c, a);
      LocksStay(cfg, run[k - 1], run[k], c, a);
    }
  }

  /** If some disjoint tasks together do not fit, a run with just these tasks ends without a way. */
  lemma {:induction false} TooMuchAborts(cfg: Config, s: State, held: seq<seq<nat>>, tasks: set<seq<nat>>) returns (run: seq<State>)
    requires Init(cfg, s) && ValidTasks(cfg, tasks) && Assignment(tasks, held) && |held| == |s.phase|
    requires Demand(cfg, held) > Unlocked(s.ways, |s.ways|)
    ensures IsRun(cfg, run) && TakesOnly(run, tasks) && run[0] == s && !NobodyStuck(Last(run))
  {
    run := RunTasks(cfg, s, held, tasks, |held|);
    if NobodyStuck(Last(run)) {
      assert Last(run).held == held;
      LastIsGood(cfg, run);
      LoadedFits(cfg, Last(run));
      RunKeepsLocks(cfg, run, |run| - 1);
      SameUnlocked(s.ways, Last(run).ways, |s.ways|);
    }
  }

  /** From a given start, with tasks from a given set: the CPUs never run out of ways, on any run, if and
      only if every choice of disjoint tasks for the CPUs fits into the non-critical ways. */
  lemma {:induction false} AdmissionExactlyWhen(cfg: Config, s: State, tasks: set<seq<nat>>)
    requires Init(cfg, s) && ValidTasks(cfg, tasks)
    ensures (forall run: seq<State> :: IsRun(cfg, run) && run[0] == s && TakesOnly(run, tasks) ==> NobodyStuck(Last(run)))
        <==> AlwaysFits(cfg, tasks, |s.phase|, Unlocked(s.ways, |s.ways|))
  {
    if AlwaysFits(cfg, tasks, |s.phase|, Unlocked(s.ways, |s.ways|)) {
      forall run: seq<State> | IsRun(cfg, run) && run[0] == s && TakesOnly(run, tasks) ensures NobodyStuck(Last(run)) {
        Admission(cfg, run, |run| - 1, tasks);
      }
    } else {
      var held: seq<seq<nat>> :|
        |held| == |s.phase| && Assignment(tasks, held) && Demand(cfg, held) > Unlocked(s.ways, |s.ways|);
      var run := TooMuchAborts(cfg, s, held, tasks);
    }
  }
}
