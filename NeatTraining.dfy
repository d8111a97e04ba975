/** UNEATTrainingManager (NEATTrainingManager.cpp): the editor-side driver
    of NEAT evolution. It hands genomes to racing agents, collects each
    agent's NEAT fitness, exports the generation's fitness map and waits for
    the external evolution step. Agents are values the manager reads and
    updates (their genome, generation, done flag and episode statistics);
    file and JSON I/O, the timer and the external process are parameters or
    left out. */
module NeatTraining {
  import opened Common
  import opened AgentTypes

  /** FNEATTrainingStats without its clock fields. */
  datatype NeatStats = NeatStats(currentGeneration: int, totalEvaluations: int, bestFitness: real,
                                 avgFitness: real, bestGenomeId: int)

  const DefaultStats := NeatStats(0, 0, 0.0, 0.0, -1)

  /** One registered agent as the manager sees it through its weak pointer:
      whether it is still alive, whether its episode can be reset (player
      start and vehicle present), its genome and generation, its episode
      flag and start time, and the statistics its NEAT fitness is built
      from. */
  datatype AgentSlot = AgentSlot(agentId: int, alive: bool, canReset: bool, genomeId: int, generation: int,
                                 done: bool, startTime: real,
                                 distanceCm: real, avgSpeed: real, durationSeconds: real)

  /** FNEATGenomeData, the fields the manager uses. */
  datatype GenomeData = GenomeData(genomeId: int, generation: int, fitness: real)

  // ---------------------------------------------------------------------
  // The fitness map and its average
  // ---------------------------------------------------------------------

  lemma HasKey(keys: set<int>)
    requires keys != {}
    ensures exists k :: k in keys
  {
    if forall k :: k !in keys {
      assert false;
    }
  }

  /** The sum of the fitness values stored under `keys`, in no particular
      order (the map's iteration order does not matter). */
  ghost function MapSum(m: map<int, real>, keys: set<int>): real
    requires keys <= m.Keys
    decreases keys
  {
    if keys == {} then 0.0
    else
      HasKey(keys);
      var k :| k in keys;
      m[k] + MapSum(m, keys - {k})
  }

  /** Any key may be taken out first: the sum does not depend on the order
      the map is visited in. */
  lemma {:induction false} MapSumRemove(m: map<int, real>, keys: set<int>, k: int)
    requires keys <= m.Keys && k in keys
    ensures MapSum(m, keys) == m[k] + MapSum(m, keys - {k})
    decreases keys
  {
    var j :| j in keys && MapSum(m, keys) == m[j] + MapSum(m, keys - {j});
    if j != k {
      MapSumRemove(m, keys - {j}, k);
      MapSumRemove(m, keys - {k}, j);
      assert keys - {j} - {k} == keys - {k} - {j};
    }
  }

  /** Taking one key out of a non-empty key set splits its sum. */
  lemma TakeOne(m: map<int, real>, keys: set<int>) returns (k: int, rest: set<int>)
    requires keys <= m.Keys && keys != {}
    ensures k in keys && rest < keys && |keys| as real == |rest| as real + 1.0
    ensures MapSum(m, keys) == m[k] + MapSum(m, rest)
  {
    HasKey(keys);
    k :| k in keys;
    rest := keys - {k};
    MapSumRemove(m, keys, k);
  }

  /** Every stored value at least `lo` puts the sum at least the count
      times `lo`; every value at most `hi`, at most the count times `hi`. */
  lemma {:induction false} MapSumAtLeast(m: map<int, real>, keys: set<int>, lo: real)
    requires keys <= m.Keys
    requires forall k :: k in keys ==> lo <= m[k]
    ensures |keys| as real * lo <= MapSum(m, keys)
    decreases keys
  {
    if keys != {} {
      var k, rest := TakeOne(m, keys);
      MapSumAtLeast(m, rest, lo);
      SumStepAtLeast(m[k], MapSum(m, rest), |rest| as real, |keys| as real, lo);
    }
  }

  lemma {:induction false} MapSumAtMost(m: map<int, real>, keys: set<int>, hi: real)
    requires keys <= m.Keys
    requires forall k :: k in keys ==> m[k] <= hi
    ensures MapSum(m, keys) <= |keys| as real * hi
    decreases keys
  {
    if keys != {} {
      var k, rest := TakeOne(m, keys);
      MapSumAtMost(m, rest, hi);
      SumStepAtMost(m[k], MapSum(m, rest), |rest| as real, |keys| as real, hi);
    }
  }

  /** One more term: a term and a sum of `n` terms, each bounded below,
      bound a sum of `n + 1` terms below; likewise above. */
  lemma SumStepAtLeast(a: real, b: real, n: real, n1: real, x: real)
    requires n1 == n + 1.0 && x <= a && n * x <= b
    ensures n1 * x <= a + b
  {
    assert n1 * x == n * x + x;
  }

  lemma SumStepAtMost(a: real, b: real, n: real, n1: real, x: real)
    requires n1 == n + 1.0 && a <= x && b <= n * x
    ensures a + b <= n1 * x
  {
    assert n1 * x == n * x + x;
  }

  /** TrainingStats.AvgFitness after an export: the mean fitness of the
      map, or 0 for an empty map. */
  ghost function AverageFitness(m: map<int, real>): real
  {
    if |m| > 0 then MapSum(m, m.Keys) / |m| as real else 0.0
  }

  /** The average of a non-empty map lies between its smallest and largest
      fitness. */
  lemma AverageWithinBounds(m: map<int, real>, lo: real, hi: real)
    requires |m| > 0
    requires forall k :: k in m ==> lo <= m[k] <= hi
    ensures lo <= AverageFitness(m) <= hi
  {
    MapSumAtLeast(m, m.Keys, lo);
    MapSumAtMost(m, m.Keys, hi);
    assert |m.Keys| == |m|;
    var n := |m| as real;
    var s := MapSum(m, m.Keys);
    assert n * lo <= s <= n * hi;
    assert s / n >= lo by {
      assert s / n * n == s;
    }
    assert s / n <= hi by {
      assert s / n * n == s;
    }
  }

  // ---------------------------------------------------------------------
  // Best fitness
  // ---------------------------------------------------------------------

  /** The best-fitness update of one recorded episode. */
  function BestUpdate(best: real, fitness: real): (r: real)
    ensures r >= best && r >= fitness
    ensures r == best || r == fitness
  {
    if fitness > best then fitness else best
  }

  /** The best fitness after a run of recorded episodes. */
  function BestOver(best: real, fitnesses: seq<real>): real
    decreases |fitnesses|
  {
    if fitnesses == [] then best
    else BestUpdate(BestOver(best, fitnesses[..|fitnesses| - 1]), fitnesses[|fitnesses| - 1])
  }

  /** After any run of episodes the best fitness is the maximum of the
      starting value and every recorded fitness. */
  lemma {:induction false} BestOverIsMaximum(best: real, fitnesses: seq<real>)
    ensures BestOver(best, fitnesses) >= best
    ensures forall i :: 0 <= i < |fitnesses| ==> BestOver(best, fitnesses) >= fitnesses[i]
    ensures BestOver(best, fitnesses) == best || BestOver(best, fitnesses) in fitnesses
    decreases |fitnesses|
  {
    if fitnesses != [] {
      var init := fitnesses[..|fitnesses| - 1];
      BestOverIsMaximum(best, init);
      forall i | 0 <= i < |fitnesses| - 1
        ensures BestOver(best, fitnesses) >= fitnesses[i]
      {
        assert init[i] == fitnesses[i];
      }
      if BestOver(best, init) in init {
        assert forall x :: x in init ==> x in fitnesses;
      }
    }
  }

  // ---------------------------------------------------------------------
  // Agents
  // ---------------------------------------------------------------------

  /** The agent a finished episode is credited to: the first live agent
      whose episode started at `startTime`, searching from index `from`. */
  function MatchFrom(agents: seq<AgentSlot>, startTime: real, from: nat): (r: Option<nat>)
    requires from <= |agents|
    ensures r.Some? ==> from <= r.value < |agents| && agents[r.value].alive && agents[r.value].startTime == startTime
    ensures r.Some? ==> forall k :: from <= k < r.value ==> !(agents[k].alive && agents[k].startTime == startTime)
    ensures r.None? ==> forall k :: from <= k < |agents| ==> !(agents[k].alive && agents[k].startTime == startTime)
    decreases |agents| - from
  {
    if from == |agents| then None
    else if agents[from].alive && agents[from].startTime == startTime then Some(from)
    else MatchFrom(agents, startTime, from + 1)
  }

  /** The NEAT fitness an agent's current statistics earn. */
  function SlotFitness(a: AgentSlot): real
  {
    NeatFitness(a.distanceCm, a.avgSpeed, a.durationSeconds)
  }

  /** The genome an agent receives: a live agent takes the genome's id and
      the current generation; a dead one is skipped. */
  function AssignedSlot(a: AgentSlot, g: GenomeData, generation: int): (r: AgentSlot)
    ensures a.alive ==> r.genomeId == g.genomeId && r.generation == generation
    ensures r.alive == a.alive && r.agentId == a.agentId && r.done == a.done && r.startTime == a.startTime
    ensures !a.alive ==> r == a
  {
    if a.alive then a.(genomeId := g.genomeId, generation := generation) else a
  }

  /** ResetEpisode on a live agent whose episode can be reset: not done,
      started at `now`, statistics zeroed. */
  function ResetSlot(a: AgentSlot, now: real): (r: AgentSlot)
    ensures a.alive && a.canReset ==> !r.done && r.startTime == now && SlotFitness(r) == 0.0
    ensures !(a.alive && a.canReset) ==> r == a
    ensures r.agentId == a.agentId && r.genomeId == a.genomeId && r.alive == a.alive
  {
    if a.alive && a.canReset then a.(done := false, startTime := now, distanceCm := 0.0, avgSpeed := 0.0, durationSeconds := 0.0)
    else a
  }

  /** Whether every live agent has finished its episode (dead ones are
      ignored). */
  predicate AllDone(agents: seq<AgentSlot>)
  {
    forall i :: 0 <= i < |agents| ==> agents[i].alive ==> agents[i].done
  }

  /** The fitness map after the timeout path has credited every live,
      unfinished agent with the fitness of its statistics so far. */
  function RecordTimeouts(m: map<int, real>, agents: seq<AgentSlot>): map<int, real>
    decreases |agents|
  {
    if agents == [] then m
    else
      var before := RecordTimeouts(m, agents[..|agents| - 1]);
      var a := agents[|agents| - 1];
      if a.alive && !a.done then before[a.genomeId := SlotFitness(a)] else before
  }

  /** The timeout path adds exactly the genomes of live, unfinished agents,
      and leaves the fitness of every other genome alone. */
  lemma {:induction false} RecordTimeoutsKeys(m: map<int, real>, agents: seq<AgentSlot>)
    ensures forall g :: g in RecordTimeouts(m, agents) <==>
              (g in m || exists i :: 0 <= i < |agents| && agents[i].alive && !agents[i].done && agents[i].genomeId == g)
    ensures forall g :: g in m && (forall i :: 0 <= i < |agents| ==> !(agents[i].alive && !agents[i].done && agents[i].genomeId == g))
              ==> RecordTimeouts(m, agents)[g] == m[g]
    decreases |agents|
  {
    if agents != [] {
      var init := agents[..|agents| - 1];
      RecordTimeoutsKeys(m, init);
      forall i | 0 <= i < |init|
        ensures init[i] == agents[i]
      {
      }
      forall i | 0 <= i < |agents| && agents[i].alive && !agents[i].done
        ensures agents[i].genomeId in RecordTimeouts(m, agents)
      {
      }
      forall g | g in m && (forall i :: 0 <= i < |agents| ==> !(agents[i].alive && !agents[i].done && agents[i].genomeId == g))
        ensures RecordTimeouts(m, agents)[g] == m[g]
      {
        forall i | 0 <= i < |init|
          ensures !(init[i].alive && !init[i].done && init[i].genomeId == g)
        {
          assert init[i] == agents[i];
        }
      }
    }
  }

  /** The manager's state. */
  class NeatTrainingManager {
    var numGenerations: int
    var populationSize: int
    var maxEpisodeDuration: real
    var state: NeatTrainingState
    var stats: NeatStats
    var currentGeneration: int
    var agents: seq<AgentSlot>
    var currentGenomes: seq<GenomeData>
    /** GenomeFitnessMap: genome id to fitness. */
    var fitnessMap: map<int, real>
    var hasExecutor: bool
    var evaluationTimeElapsed: real
    var waitingForPython: bool

    constructor ()
      ensures numGenerations == 50 && populationSize == 50 && maxEpisodeDuration == 120.0
      ensures state == Idle && stats == DefaultStats && currentGeneration == 0
      ensures agents == [] && currentGenomes == [] && fitnessMap == map[]
      ensures !hasExecutor && evaluationTimeElapsed == 0.0 && !waitingForPython
    {
      numGenerations, populationSize, maxEpisodeDuration := 50, 50, 120.0;
      state, stats, currentGeneration := Idle, DefaultStats, 0;
      agents, currentGenomes, fitnessMap := [], [], map[];
      hasExecutor, evaluationTimeElapsed, waitingForPython := false, 0.0, false;
    }

    // ----- Lifecycle -----

    /** TriggerPythonEvolution: without an executor nothing happens;
      otherwise the manager waits for the evolution step. */
    method TriggerPythonEvolution()
      modifies this`state, this`waitingForPython
      ensures hasExecutor ==> state == WaitingForPython && waitingForPython
      ensures !hasExecutor ==> state == old(state) && waitingForPython == old(waitingForPython)
    {
      if !hasExecutor {
        return;
      }
      state := WaitingForPython;
      waitingForPython := true;
    }

    /** StartTraining: only from Idle with at least one agent; then the
      statistics, generation and fitness map are reset and the first
      evolution step is requested. */
    method StartTraining()
      modifies this`hasExecutor, this`stats, this`currentGeneration, this`fitnessMap, this`state, this`waitingForPython
      ensures old(state) != Idle || |agents| == 0 ==>
                state == old(state) && stats == old(stats) && currentGeneration == old(currentGeneration) &&
                fitnessMap == old(fitnessMap) && hasExecutor == old(hasExecutor) &&
                waitingForPython == old(waitingForPython)
      ensures old(state) == Idle && |agents| > 0 ==>
                hasExecutor && stats == DefaultStats && currentGeneration == 0 && fitnessMap == map[] &&
                state == WaitingForPython && waitingForPython
    {
      if state != Idle {
        return;
      }
      if |agents| == 0 {
        return;
      }
      hasExecutor := true;
      stats := DefaultStats;
      currentGeneration := 0;
      fitnessMap := map[];
      state := Evaluating;
      TriggerPythonEvolution();
    }

    /** StopTraining: a no-op from Idle; otherwise back to Idle, no longer
      waiting for the evolution step. */
    method StopTraining()
      modifies this`state, this`waitingForPython
      ensures old(state) == Idle ==> state == Idle && waitingForPython == old(waitingForPython)
      ensures old(state) != Idle ==> state == Idle && !waitingForPython
    {
      if state == Idle {
        return;
      }
      state := Idle;
      waitingForPython := false;
    }

    /** PauseTraining: only Evaluating becomes Idle. */
    method PauseTraining()
      modifies this`state
      ensures old(state) == Evaluating ==> state == Idle
      ensures old(state) != Evaluating ==> state == old(state)
    {
      if state == Evaluating {
        state := Idle;
      }
    }

    /** ResumeTraining: only Idle becomes Evaluating. */
    method ResumeTraining()
      modifies this`state
      ensures old(state) == Idle ==> state == Evaluating
      ensures old(state) != Idle ==> state == old(state)
    {
      if state == Idle {
        state := Evaluating;
      }
    }

    // ----- Agent management -----

    /** RegisterAgent: a null agent is ignored; otherwise it is appended. */
    method RegisterAgent(agent: Option<AgentSlot>)
      modifies this`agents
      ensures agent.None? ==> agents == old(agents)
      ensures agent.Some? ==> agents == old(agents) + [agent.value]
    {
      if agent.None? {
        return;
      }
      agents := agents + [agent.value];
    }

    /** UnregisterAgent: every entry of the agent is removed, the others
      keep their order. */
    method UnregisterAgent(agentId: Option<int>)
      modifies this`agents
      ensures agentId.None? ==> agents == old(agents)
      ensures agentId.Some? ==> agents == Without(old(agents), agentId.value)
    {
      if agentId.None? {
        return;
      }
      agents := Without(agents, agentId.value);
    }

    /** UnregisterAllAgents. */
    method UnregisterAllAgents()
      modifies this`agents
      ensures agents == []
    {
      agents := [];
    }

    // ----- Generation cycle -----

    /** LoadGenerationGenomes with the parsed genome list as input: `None`
      when the list file is missing or unreadable (the current genomes are
      kept), otherwise one entry per listed genome, `None` where that
      genome's own file failed to load. Succeeds iff a genome loaded. */
    method LoadGenerationGenomes(genomeList: Option<seq<Option<GenomeData>>>) returns (ok: bool)
      modifies this`currentGenomes
      ensures genomeList.None? ==> !ok && currentGenomes == old(currentGenomes)
      ensures genomeList.Some? ==> currentGenomes == Loaded(genomeList.value) && (ok <==> |currentGenomes| > 0)
    {
      if genomeList.None? {
        return false;
      }
      var list := genomeList.value;
      var loaded: seq<GenomeData> := [];
      var i := 0;
      while i < |list|
        invariant 0 <= i <= |list|
        invariant loaded == Loaded(list[..i])
      {
        assert list[..i + 1][..i] == list[..i];
        if list[i].Some? {
          loaded := loaded + [list[i].value];
        }
        i := i + 1;
      }
      assert list[..|list|] == list;
      currentGenomes := loaded;
      ok := |loaded| > 0;
    }

    /** AssignGenomesToAgents: agent i takes genome i for every i below
      both counts; dead agents are skipped. */
    method AssignGenomesToAgents()
      modifies this`agents
      ensures |agents| == |old(agents)|
      ensures forall i :: 0 <= i < |agents| && i < |currentGenomes| ==>
                agents[i] == AssignedSlot(old(agents)[i], currentGenomes[i], currentGeneration)
      ensures forall i :: |currentGenomes| <= i < |agents| ==> agents[i] == old(agents)[i]
    {
      var i := 0;
      while i < |agents| && i < |currentGenomes|
        invariant 0 <= i <= |agents| && i <= |currentGenomes|
        invariant |agents| == |old(agents)|
        invariant forall k :: 0 <= k < i && k < |currentGenomes| ==>
                    agents[k] == AssignedSlot(old(agents)[k], currentGenomes[k], currentGeneration)
        invariant forall k :: i <= k < |agents| ==> agents[k] == old(agents)[k]
      {
        if agents[i].alive {
          agents := agents[i := AssignedSlot(agents[i], currentGenomes[i], currentGeneration)];
        }
        i := i + 1;
      }
    }

    /** StartEpisodeEvaluation: every live agent's episode is reset (at the
      clock reading `now`) and the evaluation time restarts. */
    method StartEpisodeEvaluation(now: real)
      modifies this`agents, this`evaluationTimeElapsed
      ensures |agents| == |old(agents)|
      ensures forall i :: 0 <= i < |agents| ==> agents[i] == ResetSlot(old(agents)[i], now)
      ensures evaluationTimeElapsed == 0.0
    {
      var i := 0;
      while i < |agents|
        invariant 0 <= i <= |agents|
        invariant |agents| == |old(agents)|
        invariant forall k :: 0 <= k < i ==> agents[k] == ResetSlot(old(agents)[k], now)
        invariant forall k :: i <= k < |agents| ==> agents[k] == old(agents)[k]
      {
        agents := agents[i := ResetSlot(agents[i], now)];
        i := i + 1;
      }
      evaluationTimeElapsed := 0.0;
    }

    /** AreAllAgentsDone. */
    method AreAllAgentsDone() returns (allDone: bool)
      ensures allDone <==> AllDone(agents)
    {
      var i := 0;
      while i < |agents|
        invariant 0 <= i <= |agents|
        invariant forall k :: 0 <= k < i ==> agents[k].alive ==> agents[k].done
      {
        if agents[i].alive && !agents[i].done {
          return false;
        }
        i := i + 1;
      }
      return true;
    }

    /** OnAgentEpisodeDone: the episode is credited to the first live agent
      that started at the same time. Its genome's fitness is recorded, and
      the best fitness and genome are updated when the fitness beats the
      best so far. The evaluation count always grows by one. */
    method OnAgentEpisodeDone(startTime: real, neatFitness: real)
      modifies this`fitnessMap, this`stats
      ensures stats.totalEvaluations == old(stats.totalEvaluations) + 1
      ensures stats.bestFitness >= old(stats.bestFitness)
      ensures stats.currentGeneration == old(stats.currentGeneration) && stats.avgFitness == old(stats.avgFitness)
      ensures MatchFrom(agents, startTime, 0).None? ==>
                fitnessMap == old(fitnessMap) && stats.bestFitness == old(stats.bestFitness) &&
                stats.bestGenomeId == old(stats.bestGenomeId)
      ensures MatchFrom(agents, startTime, 0).Some? ==>
                var a := agents[MatchFrom(agents, startTime, 0).value];
                fitnessMap == old(fitnessMap)[a.genomeId := neatFitness] &&
                stats.bestFitness == BestUpdate(old(stats.bestFitness), neatFitness) &&
                stats.bestGenomeId == (if neatFitness > old(stats.bestFitness) then a.genomeId else old(stats.bestGenomeId))
    {
      var i := 0;
      while i < |agents|
        invariant 0 <= i <= |agents|
        invariant MatchFrom(agents, startTime, 0) == MatchFrom(agents, startTime, i)
        invariant fitnessMap == old(fitnessMap) && stats == old(stats)
      {
        if agents[i].alive && agents[i].startTime == startTime {
          var genomeId := agents[i].genomeId;
          fitnessMap := fitnessMap[genomeId := neatFitness];
          if neatFitness > stats.bestFitness {
            stats := stats.(bestFitness := neatFitness, bestGenomeId := genomeId);
          }
          break;
        }
        i := i + 1;
      }
      stats := stats.(totalEvaluations := stats.totalEvaluations + 1);
    }

    // ----- Fitness export -----

    /** ExportFitnessValues: the average fitness of the map becomes the
      statistics' average and the map is cleared. */
    method ExportFitnessValues()
      modifies this`stats, this`fitnessMap
      ensures stats == old(stats).(avgFitness := AverageFitness(old(fitnessMap)))
      ensures fitnessMap == map[]
    {
      var total := TotalFitness(fitnessMap);
      stats := stats.(avgFitness := if |fitnessMap| > 0 then total / |fitnessMap| as real else 0.0);
      fitnessMap := map[];
    }

    /** RecordTimeoutFitness: the timeout path's loop crediting every live,
      unfinished agent. */
    method RecordTimeoutFitness()
      modifies this`fitnessMap
      ensures fitnessMap == RecordTimeouts(old(fitnessMap), agents)
    {
      var i := 0;
      while i < |agents|
        invariant 0 <= i <= |agents|
        invariant fitnessMap == RecordTimeouts(old(fitnessMap), agents[..i])
      {
        assert agents[..i + 1][..i] == agents[..i];
        var a := agents[i];
        if a.alive && !a.done {
          fitnessMap := fitnessMap[a.genomeId := SlotFitness(a)];
        }
        i := i + 1;
      }
      assert agents[..|agents|] == agents;
    }

    /** TickEvaluation: outside Evaluating nothing happens. Once every live
      agent is done, the generation's fitness is exported, the generation
      advances, and training completes at NumGenerations or requests the
      next evolution step. On timeout the unfinished agents are credited
      first, and the generation advances without the completion check. */
    method TickEvaluation(deltaTime: real)
      modifies this`evaluationTimeElapsed, this`fitnessMap, this`stats, this`currentGeneration, this`state, this`waitingForPython
      ensures old(state) != Evaluating ==>
                evaluationTimeElapsed == old(evaluationTimeElapsed) && fitnessMap == old(fitnessMap) &&
                stats == old(stats) && currentGeneration == old(currentGeneration) && state == old(state) &&
                waitingForPython == old(waitingForPython)
      ensures old(state) == Evaluating ==> evaluationTimeElapsed == old(evaluationTimeElapsed) + deltaTime
      ensures old(state) == Evaluating && AllDone(agents) ==>
                fitnessMap == map[] && currentGeneration == old(currentGeneration) + 1 &&
                stats == old(stats).(avgFitness := AverageFitness(old(fitnessMap)), currentGeneration := currentGeneration) &&
                (currentGeneration >= numGenerations ==> state == Completed && waitingForPython == old(waitingForPython)) &&
                (currentGeneration < numGenerations && hasExecutor ==> state == WaitingForPython && waitingForPython) &&
                (currentGeneration < numGenerations && !hasExecutor ==>
                   state == Evaluating && waitingForPython == old(waitingForPython))
      ensures old(state) == Evaluating && !AllDone(agents) && evaluationTimeElapsed >= maxEpisodeDuration ==>
                fitnessMap == map[] && currentGeneration == old(currentGeneration) + 1 &&
                stats == old(stats).(avgFitness := AverageFitness(RecordTimeouts(old(fitnessMap), agents))) &&
                (hasExecutor ==> state == WaitingForPython && waitingForPython) &&
                (!hasExecutor ==> state == Evaluating && waitingForPython == old(waitingForPython))
      ensures old(state) == Evaluating && !AllDone(agents) && evaluationTimeElapsed < maxEpisodeDuration ==>
                fitnessMap == old(fitnessMap) && stats == old(stats) &&
                currentGeneration == old(currentGeneration) && state == Evaluating &&
                waitingForPython == old(waitingForPython)
    {
      if state != Evaluating {
        return;
      }
      evaluationTimeElapsed := evaluationTimeElapsed + deltaTime;
      var allDone := AreAllAgentsDone();
      if allDone {
        ExportFitnessValues();
        currentGeneration := currentGeneration + 1;
        stats := stats.(currentGeneration := currentGeneration);
        if currentGeneration >= numGenerations {
          state := Completed;
        } else {
          TriggerPythonEvolution();
        }
      } else if evaluationTimeElapsed >= maxEpisodeDuration {
        RecordTimeoutFitness();
        ExportFitnessValues();
        currentGeneration := currentGeneration + 1;
        TriggerPythonEvolution();
      }
    }

    /** OnPythonEvolutionComplete: a failed step, or a generation with no
      loadable genome, stops training; otherwise the new genomes are
      assigned and evaluation starts. */
    method OnPythonEvolutionComplete(success: bool, genomeList: Option<seq<Option<GenomeData>>>, now: real)
      modifies this`waitingForPython, this`state, this`currentGenomes, this`agents, this`evaluationTimeElapsed
      ensures !waitingForPython
      ensures !success ==> currentGenomes == old(currentGenomes) && agents == old(agents) &&
                           (old(state) != Idle ==> state == Idle) && (old(state) == Idle ==> state == Idle)
      ensures success && genomeList.None? ==> currentGenomes == old(currentGenomes) && agents == old(agents) && state == Idle
      ensures success && genomeList.Some? && |Loaded(genomeList.value)| == 0 ==>
                currentGenomes == [] && agents == old(agents) && state == Idle
      ensures success && genomeList.Some? && |Loaded(genomeList.value)| > 0 ==>
                currentGenomes == Loaded(genomeList.value) && state == Evaluating &&
                evaluationTimeElapsed == 0.0 && |agents| == |old(agents)| &&
                (forall i :: 0 <= i < |agents| && i < |currentGenomes| ==>
                   agents[i] == ResetSlot(AssignedSlot(old(agents)[i], currentGenomes[i], currentGeneration), now)) &&
                (forall i :: |currentGenomes| <= i < |agents| ==> agents[i] == ResetSlot(old(agents)[i], now))
    {
      waitingForPython := false;
      if !success {
        StopTraining();
        return;
      }
      var ok := LoadGenerationGenomes(genomeList);
      if !ok {
        StopTraining();
        return;
      }
      AssignGenomesToAgents();
      state := Evaluating;
      StartEpisodeEvaluation(now);
    }

    /** The sum of the map's fitness values, visiting its keys in any
      order. */
    static method TotalFitness(m: map<int, real>) returns (total: real)
      ensures total == MapSum(m, m.Keys)
    {
      var keys := m.Keys;
      total := 0.0;
      while keys != {}
        invariant keys <= m.Keys
        invariant total + MapSum(m, keys) == MapSum(m, m.Keys)
        decreases keys
      {
        var k :| k in keys;
        MapSumRemove(m, keys, k);
        total := total + m[k];
        keys := keys - {k};
      }
    }
  }

  /** The genomes that loaded, in list order. */
  function Loaded(list: seq<Option<GenomeData>>): (r: seq<GenomeData>)
    ensures |r| <= |list|
    ensures forall g :: g in r <==> Some(g) in list
    decreases |list|
  {
    if list == [] then []
    else
      var init := Loaded(list[..|list| - 1]);
      var last := list[|list| - 1];
      assert list == list[..|list| - 1] + [last];
      if last.Some? then init + [last.value] else init
  }

  /** TArray::Remove: every entry of the agent goes, the rest keep their
      order. */
  function Without(agents: seq<AgentSlot>, agentId: int): (r: seq<AgentSlot>)
    ensures forall a :: a in r <==> a in agents && a.agentId != agentId
    ensures |r| <= |agents|
    decreases |agents|
  {
    if agents == [] then []
    else if agents[0].agentId == agentId then Without(agents[1..], agentId)
    else assert agents == [agents[0]] + agents[1..]; [agents[0]] + Without(agents[1..], agentId)
  }
}
