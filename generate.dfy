/**
  The planning part of `generate` (nemo_skills/pipeline/generate.py): checking and normalising
  the seeds and chunks of a request, and laying out one chain of `dependent_jobs + 1` tasks per
  remaining work unit, after the genselect preprocessing task when there is one.
 */
module Generate {
  import opened Wrappers
  import opened PyStr
  import opened NemoUtils
  import opened Naming
  import opened Probe
  import opened Jobs
  import opened Remaining
  import opened Commands

  // ---------------------------------------------------------------------------
  // Request checks

  const ChunkingError := ValueError("Chunking is only supported for generation type 'generate'")
  const BothSeedsError := ValueError("Cannot specify both random_seeds and num_random_seeds")

  /** Chunking is asked for when `num_chunks` or `chunk_ids` is given at all. */
  predicate ChunkingEnabled(numChunks: Option<int>, chunkIds: IdsArg) {
    numChunks.Some? || !chunkIds.Absent?
  }

  /** The integer seeds of a request: a range when `num_random_seeds` is set, else the given list. */
  function SeedIds(h: Helpers, numRandomSeeds: Option<int>, randomSeeds: IdsArg, startingSeed: int): seq<int> {
    if TruthyInt(numRandomSeeds) then Range(startingSeed, startingSeed + numRandomSeeds.value)
    else
      match randomSeeds
      case Absent => []
      case Text(t) => h.strIdsToList(t)
      case Ids(l) => l
  }

  function SomeAll(xs: seq<int>): (r: seq<Option<int>>)
    ensures |r| == |xs| && forall i :: 0 <= i < |xs| ==> r[i] == Some(xs[i])
  {
    seq(|xs|, i requires 0 <= i < |xs| => Some(xs[i]))
  }

  /**
    Lines 522-529, 547-557 and 596-597 of `generate`: the seeds and the chunk ids of a request.
    Chunking is refused for every type but `generate`, and so is giving both a seed list and a
    seed count. No seeds means the single greedy run `[None]`; no chunking means `[None]`.
   */
  function NormalizeRequest(h: Helpers, t: GenerationType, numRandomSeeds: Option<int>, randomSeeds: IdsArg,
                            startingSeed: int, numChunks: Option<int>, chunkIds: IdsArg)
    : (r: Result<(seq<Seed>, seq<Chunk>)>)
    ensures r.Err? <==>
      || (ChunkingEnabled(numChunks, chunkIds) && t != Generate)
      || (TruthyIds(randomSeeds) && TruthyInt(numRandomSeeds))
      || (chunkIds.Text? && !TruthyInt(numChunks))
    ensures ChunkingEnabled(numChunks, chunkIds) && t != Generate ==> r == Err(ChunkingError)
    ensures !(ChunkingEnabled(numChunks, chunkIds) && t != Generate) && TruthyIds(randomSeeds) && TruthyInt(numRandomSeeds)
      ==> r == Err(BothSeedsError)
    ensures r.Ok? ==> r.value.0 != [] && (r.value.0 == [None] || forall i :: 0 <= i < |r.value.0| ==> r.value.0[i].Some?)
    ensures r.Ok? && TruthyInt(numRandomSeeds) && numRandomSeeds.value > 0 ==>
      && |r.value.0| == numRandomSeeds.value
      && forall i :: 0 <= i < |r.value.0| ==> r.value.0[i] == Some(startingSeed + i)
    ensures r.Ok? && TruthyInt(numRandomSeeds) && numRandomSeeds.value < 0 ==> r.value.0 == [None]
    ensures r.Ok? && !TruthyInt(numRandomSeeds) && randomSeeds.Absent? ==> r.value.0 == [None]
    ensures r.Ok? && !TruthyInt(numRandomSeeds) && randomSeeds.Ids? ==>
      r.value.0 == if randomSeeds.ids == [] then [None] else SomeAll(randomSeeds.ids)
    ensures r.Ok? && !TruthyInt(numRandomSeeds) && randomSeeds.Text? ==>
      var ids := h.strIdsToList(randomSeeds.text);
      r.value.0 == if ids == [] then [None] else SomeAll(ids)
    ensures r.Ok? && !TruthyInt(numChunks) && chunkIds.Absent? ==> r.value.1 == [None]
    ensures r.Ok? && TruthyInt(numChunks) ==> r.value.1 == SomeAll(h.computeChunkIds(chunkIds, numChunks.value))
    ensures r.Ok? && !TruthyInt(numChunks) && chunkIds.Ids? ==> r.value.1 == SomeAll(chunkIds.ids)
    ensures r.Ok? && (TruthyInt(numChunks) || chunkIds.Ids?) ==> forall i :: 0 <= i < |r.value.1| ==> r.value.1[i].Some?
  {
    if ChunkingEnabled(numChunks, chunkIds) && t != Generate then Err(ChunkingError)
    else if TruthyIds(randomSeeds) && TruthyInt(numRandomSeeds) then Err(BothSeedsError)
    else if chunkIds.Text? && !TruthyInt(numChunks) then Err(TypeError)
    else
      var ids := SeedIds(h, numRandomSeeds, randomSeeds, startingSeed);
      var seeds := if ids == [] then [None] else SomeAll(ids);
      var chunks :=
        if TruthyInt(numChunks) then SomeAll(h.computeChunkIds(chunkIds, numChunks.value))
        else if chunkIds.Ids? then SomeAll(chunkIds.ids)
        else [None];
      Ok((seeds, chunks))
  }

  // ---------------------------------------------------------------------------
  // Tasks

  /** A task's command: a plain one, or the generation commands `wrap_cmd` wraps with its stages. */
  datatype TaskCommand =
    | Plain(cmd: string)
    | Wrapped(generation: string, address: string, preprocess: Option<string>, postprocess: Option<string>, seed: Seed)

  /** One `add_task` call: its name, command, server, and the indices of the tasks it waits for. */
  datatype Task = Task(name: string, command: TaskCommand, server: Option<ServerConfig>, after: Option<seq<nat>>)

  /** The request settings the task loop reads. */
  datatype Settings = Settings(
    kind: GenerationType, expname: string, outputDir: string, prefix: string,
    serverGpus: Option<int>, serverType: string, serverAddress: Option<string>, serverNodes: int,
    model: Option<string>, serverArgs: string, serverEntrypoint: Option<string>, extra: string,
    evalArgs: Option<string>, numChunks: Option<int>, preprocess: Option<string>, postprocess: Option<string>,
    genselectArgs: Option<string>, dependentJobs: int, script: string)

  /** The genselect preprocessing command, told how many seeds to compare. */
  function GenSelectPreprocess(numSeeds: nat, dir: string, genselectArgs: Option<string>): string {
    "python -m nemo_skills.inference.genselect_preprocess "
    + (" ++num_random_seeds=" + IntToStr(numSeeds) + " ++output_dir=" + dir + " "
       + (if genselectArgs.Some? then genselectArgs.value else ""))
  }

  /** The tasks added before the loop: the genselect preprocessing task, or none. */
  function PreTasks(s: Settings, numSeeds: nat): (r: seq<Task>)
    ensures |r| == if s.kind == GenSelect then 1 else 0
  {
    if s.kind == GenSelect then
      [Task("preprocess_genselect", Plain(GenSelectPreprocess(numSeeds, s.outputDir, s.genselectArgs)), None, None)]
    else []
  }

  /** `initial_tasks`: what the first task of every chain waits for. */
  function Initial(s: Settings): Option<seq<nat>> {
    if s.kind == GenSelect then Some([0]) else None
  }

  /** The preprocessing command every generation task runs (for genselect, the preprocessing itself). */
  function PreprocessOf(s: Settings, numSeeds: nat): Option<string> {
    if s.kind == GenSelect then Some(GenSelectPreprocess(numSeeds, s.outputDir, s.genselectArgs)) else s.preprocess
  }

  /** The number of tasks per unit: `len(range(dependent_jobs + 1))`. */
  function ChainLength(dependentJobs: int): nat {
    if dependentJobs + 1 > 0 then dependentJobs + 1 else 0
  }

  /** `{expname}[-rs{seed}][-chunk{chunk}]`. */
  function TaskName(expname: string, u: WorkUnit): (r: string)
    ensures StartsWith(r, expname)
  {
    (if u.seed.Some? then expname + "-rs" + IntToStr(u.seed.value) else expname)
    + (if u.chunk.Some? then "-chunk" + IntToStr(u.chunk.value) else "")
  }

  /**
    The server setup and the client command of one unit, on the free port `port`; these are the
    two calls that can raise inside the loop.
   */
  function UnitLaunch(s: Settings, h: Helpers, numSeeds: nat, u: WorkUnit, port: int)
    : (r: Result<(TaskCommand, Option<ServerConfig>)>)
    ensures s.serverAddress.None? && s.serverGpus.None? ==>
      r == Err(AssertionError("Need to specify server_gpus if hosting the model"))
    ensures s.kind != Generate && (s.serverAddress.Some? || s.serverGpus.Some?) ==> (r.Err? <==> s.evalArgs.Some?)
    ensures s.kind == Generate && (s.serverAddress.Some? || s.serverGpus.Some?) ==>
      (r.Err? <==> u.chunk.Some? && (s.numChunks.None? || !(-s.numChunks.value <= u.chunk.value < s.numChunks.value)))
    ensures r.Ok? ==>
      && r.value.0.Wrapped? && r.value.0.seed == u.seed && r.value.0.preprocess == PreprocessOf(s, numSeeds)
      && (s.serverAddress.Some? ==> r.value.1.None? && r.value.0.address == s.serverAddress.value)
      && (s.serverAddress.None? ==>
            && r.value.1 == Some(ServerConfig(s.model, s.serverType, s.serverGpus.value, s.serverNodes, s.serverArgs,
                                              s.serverEntrypoint, port))
            && r.value.0.address == LocalhostPrefix + IntToStr(port))
      && (s.kind != Generate ==> r.value.0.postprocess == s.postprocess)
  {
    var setup :- ConfigureClient(s.kind, s.serverGpus, s.serverType, s.serverAddress, Some(port), s.serverNodes,
                                 s.model, s.serverArgs, s.serverEntrypoint, s.extra, port);
    var client :- ClientCommand(s.kind, h, s.outputDir, setup.extraArguments, u.seed, s.evalArgs, u.chunk,
                                s.numChunks, s.postprocess, s.script, s.prefix);
    Ok((Wrapped(client.0, setup.address, PreprocessOf(s, numSeeds), client.1, u.seed), setup.config))
  }

  /** The chain of one unit: the first task waits for `initial`, each later one for the task before it. */
  function Chain(name: string, command: TaskCommand, server: Option<ServerConfig>, initial: Option<seq<nat>>,
                 start: nat, len: nat): (r: seq<Task>)
    ensures |r| == len
  {
    seq(len, j requires 0 <= j < len => Task(name, command, server, if j == 0 then initial else Some([start + j - 1])))
  }

  /** What launching a unit on a given free port yields: its task command and server, or the error raised. */
  type Launcher = (WorkUnit, int) -> Result<(TaskCommand, Option<ServerConfig>)>

  /** The launcher of a `generate` call: `configure_client`, then the client command. */
  function LauncherOf(s: Settings, h: Helpers, numSeeds: nat): Launcher {
    (u: WorkUnit, port: int) => UnitLaunch(s, h, numSeeds, u, port)
  }

  /**
    The chains of `units`, in order, each of `len` tasks; `base` is the index of the first task of
    the first chain. Unit `k` draws free port `ports(k)`; the first unit whose launch fails aborts
    the plan with its error.
   */
  function PlanChains(expname: string, len: nat, initial: Option<seq<nat>>, launch: Launcher,
                      units: seq<WorkUnit>, ports: nat -> int, base: nat): Result<seq<seq<Task>>>
    decreases |units|
  {
    if units == [] then Ok([])
    else
      var n := |units| - 1;
      var prev :- PlanChains(expname, len, initial, launch, units[..n], ports, base);
      var unit :- launch(units[n], ports(n));
      Ok(prev + [Chain(TaskName(expname, units[n]), unit.0, unit.1, initial, base + |Flatten(prev)|, len)])
  }

  /**
    All tasks of a `generate` call, given the remaining units, the launcher and the free ports
    drawn; the launcher of the pipeline itself is `LauncherOf(s, h, numSeeds)`.
   */
  function Plan(s: Settings, numSeeds: nat, launch: Launcher, remaining: JobMap, ports: nat -> int): Result<seq<Task>> {
    var pre := PreTasks(s, numSeeds);
    var chains :- PlanChains(s.expname, ChainLength(s.dependentJobs), Initial(s), launch, Units(remaining), ports, |pre|);
    Ok(pre + Flatten(chains))
  }

  // ---------------------------------------------------------------------------
  // The task loop

  /** `tasks` are the tasks `pre` followed by the chains planned for `units`. */
  ghost predicate Planned(expname: string, len: nat, initial: Option<seq<nat>>, launch: Launcher,
                          units: seq<WorkUnit>, ports: nat -> int, pre: seq<Task>, tasks: seq<Task>) {
    && PlanChains(expname, len, initial, launch, units, ports, |pre|).Ok?
    && tasks == pre + Flatten(PlanChains(expname, len, initial, launch, units, ports, |pre|).value)
  }

  /**
    Lines 610-628 and 630-696 of `generate`: adds the tasks one by one, threading the previous
    task through each unit's chain. `hasTasks` records whether any unit was visited.
   */
  method PlanTasks(s: Settings, numSeeds: nat, launch: Launcher, remaining: JobMap, ports: nat -> int)
    returns (r: Result<seq<Task>>, hasTasks: bool)
    ensures r == Plan(s, numSeeds, launch, remaining, ports)
    ensures r.Ok? ==> (hasTasks <==> Units(remaining) != [])
  {
    var tasks: seq<Task> := [];
    var initial: Option<seq<nat>> := None;
    if s.kind == GenSelect {
      var preprocess := GenSelectPreprocess(numSeeds, s.outputDir, s.genselectArgs);
      tasks := [Task("preprocess_genselect", Plain(preprocess), None, None)];
      initial := Some([0]);
    }
    ghost var pre := tasks;
    ghost var len := ChainLength(s.dependentJobs);
    hasTasks := false;
    var count := 0;
    for idx := 0 to |remaining|
      invariant count == |Units(remaining[..idx])|
      invariant Planned(s.expname, len, initial, launch, Units(remaining[..idx]), ports, pre, tasks)
      invariant hasTasks <==> Units(remaining[..idx]) != []
    {
      var seed, chunks := remaining[idx].0, remaining[idx].1;
      ghost var before := Units(remaining[..idx]);
      var row, any;
      row, count, any := PlanRow(s, launch, seed, chunks, ports, initial, pre, before, tasks, count);
      UnitsSnoc(remaining, idx);
      if row.Err? {
        UnitsPrefix(remaining, idx + 1);
        PlanChainsErrExtends(s.expname, len, initial, launch, Units(remaining[..idx + 1]), Units(remaining), ports, |pre|);
        return row, hasTasks || any;
      }
      tasks := row.value;
      hasTasks := hasTasks || any;
    }
    assert remaining[..|remaining|] == remaining;
    r := Ok(tasks);
  }

  /**
    The inner loop of `generate` for one seed: plans the seed's chunks in order after the units
    `before`, drawing the next free ports, and stops at the first launch that fails.
   */
  method PlanRow(s: Settings, launch: Launcher, seed: Seed, chunks: seq<Chunk>, ports: nat -> int,
                 initial: Option<seq<nat>>, ghost pre: seq<Task>, ghost before: seq<WorkUnit>,
                 tasks0: seq<Task>, count0: nat)
    returns (r: Result<seq<Task>>, count: nat, any: bool)
    requires count0 == |before|
    requires Planned(s.expname, ChainLength(s.dependentJobs), initial, launch, before, ports, pre, tasks0)
    ensures any <==> chunks != []
    ensures r.Ok? ==> count == |before + Row(seed, chunks)|
    ensures r.Ok? ==> Planned(s.expname, ChainLength(s.dependentJobs), initial, launch, before + Row(seed, chunks), ports, pre, r.value)
    ensures r.Err? ==> PlanChains(s.expname, ChainLength(s.dependentJobs), initial, launch, before + Row(seed, chunks), ports, |pre|) == Err(r.error)
  {
    ghost var len := ChainLength(s.dependentJobs);
    var tasks := tasks0;
    count, any := count0, false;
    assert before + Row(seed, chunks[..0]) == before;
    for ci := 0 to |chunks|
      invariant count == |before + Row(seed, chunks[..ci])|
      invariant Planned(s.expname, len, initial, launch, before + Row(seed, chunks[..ci]), ports, pre, tasks)
      invariant any <==> ci > 0
    {
      ghost var visited := before + Row(seed, chunks[..ci]);
      var u := WorkUnit(seed, chunks[ci]);
      any := true;
      RowVisited(before, seed, chunks, ci);
      var step := PlanUnit(s.expname, s.dependentJobs, launch, u, ports, count, initial, pre, visited, tasks);
      if step.Err? {
        PlanChainsErrExtends(s.expname, len, initial, launch, visited + [u], before + Row(seed, chunks), ports, |pre|);
        return Err(step.error), count, any;
      }
      tasks := step.value;
      count := count + 1;
    }
    assert chunks[..|chunks|] == chunks;
    r := Ok(tasks);
  }

  /**
    One chunk of the inner loop: launches unit `u` on the next free port and threads its chain
    after the tasks planned so far, or fails with the launch's error.
   */
  method PlanUnit(expname: string, dependentJobs: int, launch: Launcher, u: WorkUnit, ports: nat -> int, count: nat,
                  initial: Option<seq<nat>>, ghost pre: seq<Task>, ghost visited: seq<WorkUnit>, tasks: seq<Task>)
    returns (r: Result<seq<Task>>)
    requires count == |visited|
    requires Planned(expname, ChainLength(dependentJobs), initial, launch, visited, ports, pre, tasks)
    ensures r.Ok? ==> Planned(expname, ChainLength(dependentJobs), initial, launch, visited + [u], ports, pre, r.value)
    ensures r.Err? ==> PlanChains(expname, ChainLength(dependentJobs), initial, launch, visited + [u], ports, |pre|)
                       == Err(r.error)
  {
    ghost var len := ChainLength(dependentJobs);
    var unit := launch(u, ports(count));
    if unit.Err? {
      PlanStep(expname, len, initial, launch, visited, u, ports, |pre|);
      return Err(unit.error);
    }
    var chain := ThreadChain(TaskName(expname, u), unit.value.0, unit.value.1, initial, |tasks|, dependentJobs);
    ghost var prev := PlanChains(expname, len, initial, launch, visited, ports, |pre|).value;
    PlanExtend(expname, len, initial, launch, visited, u, ports, |pre|, |tasks|);
    AppendGroup(pre, prev, chain);
    r := Ok(tasks + chain);
  }

  /** The inner `for _ in range(dependent_jobs + 1)` loop: each new task waits for `prev_tasks`. */
  method ThreadChain(name: string, command: TaskCommand, server: Option<ServerConfig>, initial: Option<seq<nat>>,
                     start: nat, dependentJobs: int) returns (added: seq<Task>)
    ensures added == Chain(name, command, server, initial, start, ChainLength(dependentJobs))
  {
    added := [];
    var prev := initial;
    var j := 0;
    while j < dependentJobs + 1
      invariant 0 <= j && (j > 0 ==> j <= dependentJobs + 1)
      invariant added == Chain(name, command, server, initial, start, j)
      invariant prev == if j == 0 then initial else Some([start + j - 1])
    {
      var newTask := Task(name, command, server, prev);
      added := added + [newTask];
      prev := Some([start + |added| - 1]);
      j := j + 1;
    }
  }

  // ---------------------------------------------------------------------------
  // Lemmas for the task loop

  lemma RowSnoc(seed: Seed, chunks: seq<Chunk>, i: nat)
    requires i < |chunks|
    ensures Row(seed, chunks[..i + 1]) == Row(seed, chunks[..i]) + [WorkUnit(seed, chunks[i])]
  {
    assert chunks[..i + 1][..i] == chunks[..i];
  }

  lemma UnitsSnoc(m: JobMap, i: nat)
    requires i < |m|
    ensures Units(m[..i + 1]) == Units(m[..i]) + Row(m[i].0, m[i].1)
  {
    assert m[..i + 1][..i] == m[..i];
  }

  lemma {:induction false} RowPrefix(seed: Seed, chunks: seq<Chunk>, i: nat)
    requires i <= |chunks|
    ensures Row(seed, chunks[..i]) <= Row(seed, chunks)
    decreases |chunks| - i
  {
    if i < |chunks| {
      RowPrefix(seed, chunks, i + 1);
      RowSnoc(seed, chunks, i);
    } else {
      assert chunks[..i] == chunks;
    }
  }

  lemma {:induction false} UnitsPrefix(m: JobMap, i: nat)
    requires i <= |m|
    ensures Units(m[..i]) <= Units(m)
    decreases |m| - i
  {
    if i < |m| {
      UnitsPrefix(m, i + 1);
      UnitsSnoc(m, i);
    } else {
      assert m[..i] == m;
    }
  }

  /** The units visited so far, plus the current one, are a prefix of the row's units. */
  lemma RowVisited(before: seq<WorkUnit>, seed: Seed, chunks: seq<Chunk>, ci: nat)
    requires ci < |chunks|
    ensures before + Row(seed, chunks[..ci]) + [WorkUnit(seed, chunks[ci])] == before + Row(seed, chunks[..ci + 1])
    ensures before + Row(seed, chunks[..ci + 1]) <= before + Row(seed, chunks)
  {
    RowSnoc(seed, chunks, ci);
    RowPrefix(seed, chunks, ci + 1);
    var r1, r2 := Row(seed, chunks[..ci + 1]), Row(seed, chunks);
    assert r2 == r1 + r2[|r1|..];
    assert before + r2 == (before + r1) + r2[|r1|..];
  }

  /** Planning one more unit appends its chain, or fails with its error. */
  lemma PlanStep(expname: string, len: nat, initial: Option<seq<nat>>, launch: Launcher,
                 units: seq<WorkUnit>, u: WorkUnit, ports: nat -> int, base: nat)
    requires PlanChains(expname, len, initial, launch, units, ports, base).Ok?
    ensures var prev := PlanChains(expname, len, initial, launch, units, ports, base).value;
      var unit := launch(u, ports(|units|));
      PlanChains(expname, len, initial, launch, units + [u], ports, base)
        == if unit.Err? then Err(unit.error)
           else Ok(prev + [Chain(TaskName(expname, u), unit.value.0, unit.value.1, initial, base + |Flatten(prev)|, len)])
  {
    assert (units + [u])[..|units|] == units;
  }

  /** The loop's step: a successful launch of one more unit appends its chain, starting at `start`. */
  lemma PlanExtend(expname: string, len: nat, initial: Option<seq<nat>>, launch: Launcher,
                   units: seq<WorkUnit>, u: WorkUnit, ports: nat -> int, base: nat, start: nat)
    requires PlanChains(expname, len, initial, launch, units, ports, base).Ok?
    requires launch(u, ports(|units|)).Ok?
    requires start == base + |Flatten(PlanChains(expname, len, initial, launch, units, ports, base).value)|
    ensures var unit := launch(u, ports(|units|)).value;
      PlanChains(expname, len, initial, launch, units + [u], ports, base)
        == Ok(PlanChains(expname, len, initial, launch, units, ports, base).value
              + [Chain(TaskName(expname, u), unit.0, unit.1, initial, start, len)])
  {
    PlanStep(expname, len, initial, launch, units, u, ports, base);
  }

  /** Appending one group after a prefix and the flattened groups flattens the extended groups. */
  lemma AppendGroup<T>(pre: seq<T>, gs: seq<seq<T>>, g: seq<T>)
    ensures pre + Flatten(gs) + g == pre + Flatten(gs + [g])
  {
    FlattenSnoc(gs, g);
  }

  /** Once a unit fails, the plan of any longer unit list fails with the same error. */
  lemma {:induction false} PlanChainsErrExtends(expname: string, len: nat, initial: Option<seq<nat>>, launch: Launcher,
                                                xs: seq<WorkUnit>, ys: seq<WorkUnit>, ports: nat -> int, base: nat)
    requires xs <= ys
    requires PlanChains(expname, len, initial, launch, xs, ports, base).Err?
    ensures PlanChains(expname, len, initial, launch, ys, ports, base)
         == Err(PlanChains(expname, len, initial, launch, xs, ports, base).error)
    decreases |ys|
  {
    if |ys| > |xs| {
      assert xs <= ys[..|ys| - 1];
      PlanChainsErrExtends(expname, len, initial, launch, xs, ys[..|ys| - 1], ports, base);
    } else {
      assert xs == ys;
    }
  }

  lemma {:induction false} FlattenSnoc<T>(gs: seq<seq<T>>, g: seq<T>)
    ensures Flatten(gs + [g]) == Flatten(gs) + g
    decreases |gs|
  {
    if gs == [] {
      assert Flatten([g]) == g + Flatten([]);
    } else {
      assert (gs + [g])[1..] == gs[1..] + [g];
      FlattenSnoc(gs[1..], g);
    }
  }

  // ---------------------------------------------------------------------------
  // The shape of the plan

  /** One chain per unit, each of `len` tasks. */
  lemma {:induction false} PlanChainsLength(expname: string, len: nat, initial: Option<seq<nat>>, launch: Launcher,
                                            units: seq<WorkUnit>, ports: nat -> int, base: nat)
    requires PlanChains(expname, len, initial, launch, units, ports, base).Ok?
    ensures var cs := PlanChains(expname, len, initial, launch, units, ports, base).value;
      && |cs| == |units|
      && (forall k :: 0 <= k < |cs| ==> |cs[k]| == len)
      && |Flatten(cs)| == Offset(|units|, len)
    decreases |units|
  {
    if units != [] {
      var n := |units| - 1;
      PlanChainsLength(expname, len, initial, launch, units[..n], ports, base);
      var prev := PlanChains(expname, len, initial, launch, units[..n], ports, base).value;
      var unit := launch(units[n], ports(n));
      var last := Chain(TaskName(expname, units[n]), unit.value.0, unit.value.1, initial, base + |Flatten(prev)|, len);
      assert PlanChains(expname, len, initial, launch, units, ports, base).value == prev + [last];
      FlattenSnoc(prev, last);
    }
  }

  /**
    Unit `k` gets chain `k`: `len` tasks named after the unit, all running the unit's command on
    the unit's server; the first waits for `initial` and every later one for the task just before
    it (its index in the whole task list).
   */
  lemma {:induction false} PlanChainsAt(expname: string, len: nat, initial: Option<seq<nat>>, launch: Launcher,
                                        units: seq<WorkUnit>, ports: nat -> int, base: nat, k: nat)
    requires PlanChains(expname, len, initial, launch, units, ports, base).Ok?
    requires k < |units|
    ensures var cs := PlanChains(expname, len, initial, launch, units, ports, base).value;
      var unit := launch(units[k], ports(k));
      && k < |cs|
      && unit.Ok?
      && cs[k] == Chain(TaskName(expname, units[k]), unit.value.0, unit.value.1, initial, base + Offset(k, len), len)
    decreases |units|
  {
    var n := |units| - 1;
    var prev := PlanChains(expname, len, initial, launch, units[..n], ports, base).value;
    var cs := PlanChains(expname, len, initial, launch, units, ports, base).value;
    PlanChainsLength(expname, len, initial, launch, units[..n], ports, base);
    var unit := launch(units[n], ports(n));
    var last := Chain(TaskName(expname, units[n]), unit.value.0, unit.value.1, initial, base + |Flatten(prev)|, len);
    assert cs == prev + [last];
    if k < n {
      PlanChainsAt(expname, len, initial, launch, units[..n], ports, base, k);
      assert cs[k] == prev[k] && units[k] == units[..n][k];
    }
  }

  /**
    The index of the first task of chain `k` when every chain has `len` tasks: `k * len`
    (see OffsetIsProduct), kept recursive so that index arithmetic stays linear.
   */
  function Offset(k: nat, len: nat): nat {
    if k == 0 then 0 else Offset(k - 1, len) + len
  }

  lemma {:induction false} OffsetIsProduct(k: nat, len: nat)
    ensures Offset(k, len) == k * len
  {
    if k > 0 {
      OffsetIsProduct(k - 1, len);
      assert k * len == (k - 1) * len + len;
    }
  }

  /** In a list of chains of equal length `len`, task `j` of chain `k` sits at index `Offset(k, len) + j`. */
  lemma {:induction false} FlattenIndex<T>(gs: seq<seq<T>>, len: nat, k: nat, j: nat)
    requires forall i :: 0 <= i < |gs| ==> |gs[i]| == len
    requires k < |gs| && j < len
    ensures Offset(k, len) + j < |Flatten(gs)| && Flatten(gs)[Offset(k, len) + j] == gs[k][j]
    decreases k
  {
    FlattenLength(gs[1..], len);
    if k > 0 {
      FlattenIndex(gs[1..], len, k - 1, j);
    }
  }

  lemma {:induction false} FlattenLength<T>(gs: seq<seq<T>>, len: nat)
    requires forall i :: 0 <= i < |gs| ==> |gs[i]| == len
    ensures |Flatten(gs)| == Offset(|gs|, len)
    decreases |gs|
  {
    if gs != [] {
      FlattenLength(gs[1..], len);
    }
  }

  /**
    After the tasks `pre`, task `j` of chain `k` sits at index `|pre| + Offset(k, len) + j`, and
    waits for `initial` (j = 0) or for the task just before it.
   */
  lemma ChainsTask(expname: string, len: nat, initial: Option<seq<nat>>, launch: Launcher,
                   units: seq<WorkUnit>, ports: nat -> int, pre: seq<Task>, k: nat, j: nat)
    requires PlanChains(expname, len, initial, launch, units, ports, |pre|).Ok?
    requires k < |units| && j < len
    ensures var tasks := pre + Flatten(PlanChains(expname, len, initial, launch, units, ports, |pre|).value);
      var unit := launch(units[k], ports(k));
      var i := |pre| + Offset(k, len) + j;
      && |tasks| == |pre| + Offset(|units|, len)
      && unit.Ok?
      && i < |tasks|
      && tasks[i] == Task(TaskName(expname, units[k]), unit.value.0, unit.value.1,
                          if j == 0 then initial else Some([i - 1]))
  {
    PlanChainsLength(expname, len, initial, launch, units, ports, |pre|);
    PlanChainsAt(expname, len, initial, launch, units, ports, |pre|, k);
    var cs := PlanChains(expname, len, initial, launch, units, ports, |pre|).value;
    FlattenIndex(cs, len, k, j);
    assert (pre + Flatten(cs))[|pre| + Offset(k, len) + j] == Flatten(cs)[Offset(k, len) + j];
  }

  /**
    The plan holds the genselect preprocessing task first (it waits for nothing), when there is
    one, then `dependent_jobs + 1` tasks per remaining unit, and nothing else.
   */
  lemma PlanLength(s: Settings, numSeeds: nat, launch: Launcher, remaining: JobMap, ports: nat -> int)
    requires Plan(s, numSeeds, launch, remaining, ports).Ok?
    ensures var tasks := Plan(s, numSeeds, launch, remaining, ports).value;
      && |tasks| == |PreTasks(s, numSeeds)| + Offset(|Units(remaining)|, ChainLength(s.dependentJobs))
      && (s.kind == GenSelect ==> tasks[0].name == "preprocess_genselect" && tasks[0].after.None?)
  {
    var pre := PreTasks(s, numSeeds);
    PlanChainsLength(s.expname, ChainLength(s.dependentJobs), Initial(s), launch, Units(remaining), ports, |pre|);
  }

  /**
    Task `j` of unit `k` in the whole plan sits at index `pre + k * (dependent_jobs + 1) + j`,
    where `pre` is 1 for genselect and 0 otherwise: it carries the unit's name, the command and
    server of the unit's launch on port `ports(k)`, and waits for `initial_tasks` (j = 0) or for
    the task just before it.
   */
  lemma PlanTask(s: Settings, numSeeds: nat, launch: Launcher, remaining: JobMap, ports: nat -> int, k: nat, j: nat)
    requires Plan(s, numSeeds, launch, remaining, ports).Ok?
    requires k < |Units(remaining)| && j < ChainLength(s.dependentJobs)
    ensures var tasks := Plan(s, numSeeds, launch, remaining, ports).value;
      var u := Units(remaining)[k];
      var unit := launch(u, ports(k));
      var i := |PreTasks(s, numSeeds)| + Offset(k, ChainLength(s.dependentJobs)) + j;
      && unit.Ok?
      && i < |tasks|
      && tasks[i] == Task(TaskName(s.expname, u), unit.value.0, unit.value.1, if j == 0 then Initial(s) else Some([i - 1]))
  {
    ChainsTask(s.expname, ChainLength(s.dependentJobs), Initial(s), launch, Units(remaining), ports,
               PreTasks(s, numSeeds), k, j);
  }

  /**
    The units the loop visits are exactly the remaining ones: with `rerun_done`, every requested
    `(seed, chunk)`; otherwise every requested unit whose marker the probe did not find.
   */
  lemma LaunchedUnits(h: Helpers, dir: string, status: string, prefix: string,
                      seeds: seq<Seed>, chunks: seq<Chunk>, existing: set<string>, u: WorkUnit)
    ensures u in Units(Uniform(seeds, chunks)) <==> u.seed in seeds && u.chunk in chunks
    ensures u in Units(MissingJobs(h, dir, status, prefix, seeds, chunks, existing))
      <==> && u.seed in seeds && u.chunk in chunks
           && HostPath(dir, status, DoneFile(h, dir, prefix, u)) !in existing
  {
    UniformLookup(seeds, chunks, u.seed);
    DedupMembers(seeds);
    UnitsMember(Uniform(seeds, chunks), u);
    var found := Found(h, dir, status, prefix, seeds, chunks, existing);
    var missing := MissingJobs(h, dir, status, prefix, seeds, chunks, existing);
    GroupBySeedDistinct(Unfinished(Checks(h, dir, status, prefix, Expected(seeds, chunks)), existing));
    AddDefaultsDistinct(found, Expected(seeds, chunks));
    UnitsMember(missing, u);
    ProbePartition(h, dir, status, prefix, seeds, chunks, existing, u.seed, u.chunk);
    MissingJobsKeys(h, dir, status, prefix, seeds, chunks, existing, u.seed);
  }

  // ---------------------------------------------------------------------------
  // The whole planning part of `generate`

  /** The arguments of a `generate` call that choose its work units, beside `Settings`. */
  datatype UnitRequest = UnitRequest(
    numRandomSeeds: Option<int>, randomSeeds: IdsArg, startingSeed: int, chunkIds: IdsArg,
    rerunDone: bool, statusDir: string)

  /** The request's seeds and chunks, normalised. */
  function Normalized(s: Settings, h: Helpers, req: UnitRequest): Result<(seq<Seed>, seq<Chunk>)> {
    NormalizeRequest(h, s.kind, req.numRandomSeeds, req.randomSeeds, req.startingSeed, s.numChunks, req.chunkIds)
  }

  /** `get_remaining_jobs` on the normalised seeds and chunks; its probe output always parses. */
  function RemainingJobs(s: Settings, h: Helpers, req: UnitRequest, seeds: seq<Seed>, chunks: seq<Chunk>,
                         existing: set<string>): JobMap {
    if req.rerunDone then Uniform(seeds, chunks)
    else MissingJobs(h, s.outputDir, req.statusDir, s.prefix, seeds, chunks, existing)
  }

  /** The tasks a `generate` call adds, or the error it stops with. */
  function GeneratePlan(s: Settings, h: Helpers, req: UnitRequest, existing: set<string>, ports: nat -> int)
    : Result<seq<Task>>
  {
    var sc :- Normalized(s, h, req);
    Plan(s, |sc.0|, LauncherOf(s, h, |sc.0|), RemainingJobs(s, h, req, sc.0, sc.1, existing), ports)
  }

  /**
    Lines 522-557 and 596-702 of `generate`: the request is normalised, the remaining units are
    found, and the task loop plans them. `hasTasks` tells whether the experiment is run at all: it
    holds exactly when some unit remains, so a genselect call with nothing left plans only its
    preprocessing task and runs nothing.
   */
  method PlanGenerate(s: Settings, h: Helpers, req: UnitRequest, slurm: bool, existing: set<string>, ports: nat -> int)
    returns (r: Result<seq<Task>>, hasTasks: bool)
    ensures r == GeneratePlan(s, h, req, existing, ports)
    ensures r.Ok? ==>
      && Normalized(s, h, req).Ok?
      && (hasTasks <==>
            Units(RemainingJobs(s, h, req, Normalized(s, h, req).value.0, Normalized(s, h, req).value.1, existing)) != [])
  {
    var sc := Normalized(s, h, req);
    if sc.Err? {
      return Err(sc.error), false;
    }
    var seeds, chunks := sc.value.0, sc.value.1;
    var missing, done, probes :=
      GetRemainingJobs(h, s.outputDir, req.statusDir, seeds, chunks, req.rerunDone, s.prefix, slurm, existing);
    assert missing == Ok(RemainingJobs(s, h, req, seeds, chunks, existing));
    r, hasTasks := PlanTasks(s, |seeds|, LauncherOf(s, h, |seeds|), missing.value, ports);
  }

  /**
    A `generate` call plans a chain of `dependent_jobs + 1` tasks for a unit exactly when the unit's
    seed and chunk are requested and, without `rerun_done`, its marker is absent on the host; the
    plan holds those chains after the genselect preprocessing task, and nothing else.
   */
  lemma GeneratePlanUnits(s: Settings, h: Helpers, req: UnitRequest, existing: set<string>, ports: nat -> int,
                          u: WorkUnit)
    requires GeneratePlan(s, h, req, existing, ports).Ok?
    ensures Normalized(s, h, req).Ok?
    ensures var (seeds, chunks) := Normalized(s, h, req).value;
      var units := Units(RemainingJobs(s, h, req, seeds, chunks, existing));
      && |GeneratePlan(s, h, req, existing, ports).value|
         == |PreTasks(s, |seeds|)| + Offset(|units|, ChainLength(s.dependentJobs))
      && (u in units <==> && u.seed in seeds && u.chunk in chunks
                          && (req.rerunDone
                              || HostPath(s.outputDir, req.statusDir, DoneFile(h, s.outputDir, s.prefix, u)) !in existing))
  {
    var (seeds, chunks) := Normalized(s, h, req).value;
    var remaining := RemainingJobs(s, h, req, seeds, chunks, existing);
    PlanLength(s, |seeds|, LauncherOf(s, h, |seeds|), remaining, ports);
    LaunchedUnits(h, s.outputDir, req.statusDir, s.prefix, seeds, chunks, existing, u);
  }

  /** The pipeline's launcher runs UnitLaunch. */
  lemma LauncherOfApplies(s: Settings, h: Helpers, numSeeds: nat, u: WorkUnit, port: int)
    ensures LauncherOf(s, h, numSeeds)(u, port) == UnitLaunch(s, h, numSeeds, u, port)
  {
  }

  /** On a normalised request, the plan is the task loop over the remaining units. */
  lemma GeneratePlanIsPlan(s: Settings, h: Helpers, req: UnitRequest, existing: set<string>, ports: nat -> int,
                           seeds: seq<Seed>, chunks: seq<Chunk>)
    requires Normalized(s, h, req) == Ok((seeds, chunks))
    ensures GeneratePlan(s, h, req, existing, ports)
         == Plan(s, |seeds|, LauncherOf(s, h, |seeds|), RemainingJobs(s, h, req, seeds, chunks, existing), ports)
  {
  }

  /**
    With the pipeline's own launcher, task `j` of the `k`-th planned unit carries the unit's name
    and the command and server that `configure_client` and the client builder give it on free port
    `ports(k)`, and waits for the initial tasks (`j = 0`) or for the task just before it. With
    GeneratePlanIsPlan this describes every task of GeneratePlan.
   */
  lemma PlanUnitTask(s: Settings, h: Helpers, numSeeds: nat, remaining: JobMap, ports: nat -> int,
                     tasks: seq<Task>, k: nat, j: nat)
    requires Plan(s, numSeeds, LauncherOf(s, h, numSeeds), remaining, ports) == Ok(tasks)
    requires k < |Units(remaining)| && j < ChainLength(s.dependentJobs)
    ensures var u := Units(remaining)[k];
      var unit := UnitLaunch(s, h, numSeeds, u, ports(k));
      var i := |PreTasks(s, numSeeds)| + Offset(k, ChainLength(s.dependentJobs)) + j;
      && unit.Ok?
      && i < |tasks|
      && tasks[i] == Task(TaskName(s.expname, u), unit.value.0, unit.value.1, if j == 0 then Initial(s) else Some([i - 1]))
  {
    PlanTask(s, numSeeds, LauncherOf(s, h, numSeeds), remaining, ports, k, j);
    LauncherOfApplies(s, h, numSeeds, Units(remaining)[k], ports(k));
  }
}
