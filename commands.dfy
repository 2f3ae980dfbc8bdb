/**
  The client commands of one generation work unit (`get_cmd`, `get_rm_cmd`,
  `get_math_judge_cmd`, `get_genselect_cmd` and their dispatch by generation type) and the
  choice between booting a model server and using an external one (`configure_client`), all in
  nemo_skills/pipeline/generate.py.
 */
module Commands {
  import opened Wrappers
  import opened PyStr
  import opened NemoUtils
  import opened Naming

  datatype GenerationType = Generate | Reward | MathJudge | GenSelect

  /** The client module each generation type runs by default (`client_command_scripts`). */
  function DefaultScript(t: GenerationType): (s: string)
    ensures StartsWith(s, "nemo_skills.inference.")
  {
    match t
    case Generate => "nemo_skills.inference.generate"
    case Reward => "nemo_skills.inference.reward_model"
    case MathJudge => "nemo_skills.inference.llm_math_judge"
    case GenSelect => "nemo_skills.inference.genselect"
  }

  // ---------------------------------------------------------------------------
  // get_cmd

  /** `python -m <script> ++skip_filled=True ++output_file=<file> `: the start of a generation command. */
  function CmdStart(script: string, file: string): string {
    PythonModule + script + SkipFilledOutput + file + " "
  }

  const PythonModule := "python -m "
  const SkipFilledOutput := " ++skip_filled=True ++output_file="
  const SeedParam := "    ++inference.random_seed="
  const SamplingParams := " " + "    ++inference.temperature=1.0 " + "    ++inference.top_k=0 " + "    ++inference.top_p=0.95 "
  const EvaluateResults := " && python -m nemo_skills.evaluation.evaluate_results " + "    ++input_files="

  /** The sampling parameters of a seeded generation run. */
  function SamplingArgs(seed: int): string {
    SeedParam + IntToStr(seed) + SamplingParams
  }

  /** What a seed adds to the command: the sampling parameters, or nothing for the greedy run. */
  function SeedArgs(seed: Seed): (r: string)
    ensures r == [] <==> seed.None?
  {
    if seed.Some? then SamplingArgs(seed.value) else []
  }

  /** The chunk selection passed to the generation script. */
  function ChunkArgs(n: int, c: int): string {
    " ++num_chunks=" + IntToStr(n) + " ++chunk_id=" + IntToStr(c) + " "
  }

  /** The user's extra arguments, padded with a space on each side. */
  function UserArgs(extra: string): string {
    " " + extra + " "
  }

  /** The evaluation stage appended when `eval_args` is non-empty; it reads `file`. */
  function EvalStage(evalArgs: Option<string>, file: string): (r: string)
    ensures r == [] <==> !TruthyStr(evalArgs)
  {
    if TruthyStr(evalArgs) then
      EvaluateResults + file + " " + "    " + evalArgs.value + " "
    else []
  }

  /** `touch <marker> `: marks a unit as done. */
  function JobEnd(marker: string): string {
    "touch " + marker + " "
  }

  /** Python `xs[i]` on a list: a negative index counts from the end. */
  function PyIndex<T>(xs: seq<T>, i: int): (r: Result<T>)
    ensures r.Ok? <==> -|xs| <= i < |xs|
    ensures r.Err? ==> r.error == IndexError
    ensures r.Ok? ==> r.value == xs[if i >= 0 then i else |xs| + i]
  {
    if 0 <= i < |xs| then Ok(xs[i])
    else if -|xs| <= i < 0 then Ok(xs[|xs| + i])
    else Err(IndexError)
  }

  /** The markers of chunks `0 .. n-1` of one seed (`range(n)` is empty for `n <= 0`). */
  function ChunkMarkers(h: Helpers, dir: string, seed: Seed, n: int, prefix: string): (r: seq<string>)
    ensures |r| == if n > 0 then n else 0
  {
    seq(if n > 0 then n else 0, i requires 0 <= i => DoneFile(h, dir, prefix, WorkUnit(seed, Some(i))))
  }

  /** Python `f[:-5]`: the string without its last five characters. */
  function DropLastFive(f: string): string {
    if |f| >= 5 then f[..|f| - 5] else []
  }

  function DropAllLastFive(fs: seq<string>): (r: seq<string>)
    ensures |r| == |fs|
  {
    seq(|fs|, i requires 0 <= i < |fs| => DropLastFive(fs[i]))
  }

  /** The merge stage before any user post-processing: the merged file, then the partial files. */
  function MergeBase(merged: string, markers: seq<string>): string {
    "python -m nemo_skills.inference.merge_chunks " + merged + " " + Join(" ", DropAllLastFive(markers))
  }

  /**
    The merge stage of a chunked unit: the unchunked output file, then the partial file of every
    marker of `0 .. n-1`, then the quoted user post-processing command after ` -- `.
   */
  function MergeCmd(h: Helpers, dir: string, seed: Seed, n: int, prefix: string, postprocess: Option<string>): string {
    var merge := MergeBase(RsFilename(h, dir, seed, None, prefix), ChunkMarkers(h, dir, seed, n, prefix));
    if TruthyStr(postprocess) then merge + " -- " + ShellQuote(postprocess.value) else merge
  }

  /**
    What `get_cmd` returns: the generation command and the full post-processing command. A chunked
    unit fails with TypeError when `num_chunks` is None (`range(None)`), and with IndexError when
    its chunk id does not index the markers of `0 .. num_chunks-1`.
   */
  function GenerationCmd(h: Helpers, dir: string, extra: string, seed: Seed, evalArgs: Option<string>,
                         chunk: Chunk, numChunks: Option<int>, postprocess: Option<string>,
                         script: string, prefix: string): (r: Result<(string, string)>)
    ensures r.Err? <==> chunk.Some? && (numChunks.None? || !(-numChunks.value <= chunk.value < numChunks.value))
    ensures r.Err? ==> r.error == if numChunks.None? then TypeError else IndexError
  {
    var head := CmdStart(script, RsFilename(h, dir, seed, None, prefix)) + SeedArgs(seed);
    if chunk.None? then
      Ok((head + UserArgs(extra) + EvalStage(evalArgs, RsFilename(h, dir, seed, None, prefix)),
          PlainPost(RsFilename(h, dir, seed, None, prefix), postprocess)))
    else if numChunks.None? then
      Err(TypeError)
    else
      var n, c := numChunks.value, chunk.value;
      var post :- ChunkPost(h, dir, seed, n, c, postprocess, prefix);
      Ok((head + ChunkArgs(n, c) + UserArgs(extra) + EvalStage(evalArgs, RsFilename(h, dir, seed, chunk, prefix)), post))
  }

  /** The unchunked post-processing: touch the output file's marker, then the user command unquoted. */
  function PlainPost(outputFile: string, postprocess: Option<string>): string {
    var jobEnd := JobEnd(outputFile + ".done");
    if TruthyStr(postprocess) then jobEnd + " && " + postprocess.value else jobEnd
  }

  /**
    The chunked post-processing: touch the marker that the chunk id indexes in the markers of
    `0 .. n-1` (IndexError outside them), then merge.
   */
  function ChunkPost(h: Helpers, dir: string, seed: Seed, n: int, c: int, postprocess: Option<string>,
                     prefix: string): (r: Result<string>)
    ensures r.Err? <==> !(-n <= c < n)
    ensures r.Err? ==> r.error == IndexError
  {
    var own :- PyIndex(ChunkMarkers(h, dir, seed, n, prefix), c);
    Ok(JobEnd(own) + " && " + MergeCmd(h, dir, seed, n, prefix, postprocess))
  }

  /** The `donefiles` loop of `get_cmd`: the markers of chunks `0 .. n-1`, appended in order. */
  method ChunkMarkerList(h: Helpers, dir: string, seed: Seed, n: int, prefix: string) returns (donefiles: seq<string>)
    ensures donefiles == ChunkMarkers(h, dir, seed, n, prefix)
  {
    donefiles := [];
    var k := 0;
    while k < n
      invariant 0 <= k && (n > 0 ==> k <= n) && (n <= 0 ==> k == 0)
      invariant donefiles == ChunkMarkers(h, dir, seed, k, prefix)
    {
      donefiles := donefiles + [RsFilename(h, dir, seed, Some(k), prefix) + ".done"];
      k := k + 1;
    }
  }

  /** `get_cmd`: builds the command, the marker list and the post-processing command step by step. */
  method GetCmd(h: Helpers, dir: string, extra: string, seed: Seed, evalArgs: Option<string>,
                chunk: Chunk, numChunks: Option<int>, postprocess: Option<string>,
                script: string, prefix: string) returns (r: Result<(string, string)>)
    ensures r == GenerationCmd(h, dir, extra, seed, evalArgs, chunk, numChunks, postprocess, script, prefix)
  {
    var outputFile := RsFilename(h, dir, seed, None, prefix);
    var cmd := CmdStart(script, outputFile);
    var post: string;
    if seed.Some? {
      cmd := cmd + SamplingArgs(seed.value);
    } else {
      assert cmd + SeedArgs(seed) == cmd;
    }
    if chunk.Some? {
      if numChunks.None? {
        return Err(TypeError);
      }
      var n, c := numChunks.value, chunk.value;
      cmd := cmd + ChunkArgs(n, c);
      outputFile := RsFilename(h, dir, seed, chunk, prefix);
      var p := ChunkedPostCmd(h, dir, seed, n, c, postprocess, prefix);
      if p.Err? {
        return Err(IndexError);
      }
      post := p.value;
    } else {
      post := UnchunkedPostCmd(outputFile, postprocess);
    }
    cmd := cmd + UserArgs(extra);
    if TruthyStr(evalArgs) {
      cmd := cmd + EvalStage(evalArgs, outputFile);
    } else {
      assert cmd + EvalStage(evalArgs, outputFile) == cmd;
    }
    r := Ok((cmd, post));
  }

  /**
    The chunked branch of `get_cmd`'s post-processing: touch the marker that `chunk_id` indexes in
    the marker list (IndexError outside it), then merge, quoting the user command after ` -- `.
   */
  method ChunkedPostCmd(h: Helpers, dir: string, seed: Seed, n: int, c: int, postprocess: Option<string>,
                        prefix: string) returns (r: Result<string>)
    ensures r == ChunkPost(h, dir, seed, n, c, postprocess, prefix)
  {
    var donefiles := ChunkMarkerList(h, dir, seed, n, prefix);
    var own := PyIndex(donefiles, c);
    if own.Err? {
      return Err(IndexError);
    }
    var merge := MergeBase(RsFilename(h, dir, seed, None, prefix), donefiles);
    if TruthyStr(postprocess) {
      merge := merge + " -- " + ShellQuote(postprocess.value);
    }
    r := Ok(JobEnd(own.value) + " && " + merge);
  }

  /** The unchunked branch: touch the output file's marker, then run the user command unquoted. */
  method UnchunkedPostCmd(outputFile: string, postprocess: Option<string>) returns (post: string)
    ensures post == PlainPost(outputFile, postprocess)
  {
    var jobEnd := JobEnd(outputFile + ".done");
    if TruthyStr(postprocess) {
      post := jobEnd + " && " + postprocess.value;
    } else {
      post := jobEnd;
    }
  }

  /**
    A chunked unit touches exactly its own chunk's marker, the file the completion probe looks
    for; a negative chunk id touches the marker of chunk `num_chunks + chunk_id` instead. The rest
    of the post-processing command is the merge stage, which does not depend on the chunk id.
   */
  lemma ChunkedPost(h: Helpers, dir: string, extra: string, seed: Seed, evalArgs: Option<string>,
                    c: int, n: int, postprocess: Option<string>, script: string, prefix: string)
    requires -n <= c < n
    ensures var r := GenerationCmd(h, dir, extra, seed, evalArgs, Some(c), Some(n), postprocess, script, prefix);
      r.Ok? && r.value.1
        == JobEnd(DoneFile(h, dir, prefix, WorkUnit(seed, Some(if c >= 0 then c else n + c)))) + " && "
           + MergeCmd(h, dir, seed, n, prefix, postprocess)
  {
    var markers := ChunkMarkers(h, dir, seed, n, prefix);
    var own := PyIndex(markers, c);
    assert own == Ok(markers[if c >= 0 then c else n + c]);
  }

  /**
    Dropping `.done` from marker `i` gives the partial output of chunk `i`: the merge stage names
    the partial files of chunks `0 .. n-1` in order, whichever chunks this run works on.
   */
  lemma MergeNamesEveryChunk(h: Helpers, dir: string, seed: Seed, n: int, prefix: string)
    ensures var parts := DropAllLastFive(ChunkMarkers(h, dir, seed, n, prefix));
      && |parts| == (if n > 0 then n else 0)
      && forall i :: 0 <= i < |parts| ==> parts[i] == RsFilename(h, dir, seed, Some(i), prefix)
  {
    var markers := ChunkMarkers(h, dir, seed, n, prefix);
    forall i | 0 <= i < |markers|
      ensures DropLastFive(markers[i]) == RsFilename(h, dir, seed, Some(i), prefix)
    {
      var f := RsFilename(h, dir, seed, Some(i), prefix);
      assert markers[i] == f + ".done";
      assert (f + ".done")[..|f|] == f;
    }
  }

  /**
    An unchunked unit touches its own marker, then runs the user post-processing command, if any,
    unquoted.
   */
  lemma UnchunkedPost(h: Helpers, dir: string, extra: string, seed: Seed, evalArgs: Option<string>,
                      numChunks: Option<int>, postprocess: Option<string>, script: string, prefix: string)
    ensures var r := GenerationCmd(h, dir, extra, seed, evalArgs, None, numChunks, postprocess, script, prefix);
      var jobEnd := JobEnd(DoneFile(h, dir, prefix, WorkUnit(seed, None)));
      r.Ok? && r.value.1 == if TruthyStr(postprocess) then jobEnd + " && " + postprocess.value else jobEnd
  {
  }

  /**
    The generation command writes the seed's unchunked output file, carries the sampling
    parameters when a seed is given, and ends with an evaluation stage (present exactly when
    `eval_args` is non-empty) that reads the unit's own file: the chunk's file when chunked.
   */
  lemma GenerationCmdStages(h: Helpers, dir: string, extra: string, seed: Seed, evalArgs: Option<string>,
                            chunk: Chunk, numChunks: Option<int>, postprocess: Option<string>,
                            script: string, prefix: string)
    requires GenerationCmd(h, dir, extra, seed, evalArgs, chunk, numChunks, postprocess, script, prefix).Ok?
    ensures var cmd := GenerationCmd(h, dir, extra, seed, evalArgs, chunk, numChunks, postprocess, script, prefix).value.0;
      var start := CmdStart(script, RsFilename(h, dir, seed, None, prefix));
      var stage := EvalStage(evalArgs, RsFilename(h, dir, seed, chunk, prefix));
      && StartsWith(cmd, start + SeedArgs(seed))
      && EndsWith(cmd, stage)
  {
    var start := CmdStart(script, RsFilename(h, dir, seed, None, prefix));
    var stage := EvalStage(evalArgs, RsFilename(h, dir, seed, chunk, prefix));
    var mid := if chunk.Some? then ChunkArgs(numChunks.value, chunk.value) + UserArgs(extra) else UserArgs(extra);
    var head := start + SeedArgs(seed);
    if chunk.Some? {
      assert head + ChunkArgs(numChunks.value, chunk.value) + UserArgs(extra) == head + mid;
    }
    Affixes(head, mid, stage);
  }

  // ---------------------------------------------------------------------------
  // The fixed-script builders

  /** `get_rm_cmd`: a reward-model run over the whole output directory; eval_args are refused. */
  function RewardCmd(dir: string, extra: string, seed: Seed, evalArgs: Option<string>,
                     postprocess: Option<string>, script: string): (r: Result<(string, Option<string>)>)
    ensures r.Err? <==> evalArgs.Some?
    ensures r.Err? ==> r.error == ValueError("Cannot specify eval_args for reward model")
    ensures r.Ok? ==> r.value.1 == postprocess
  {
    if evalArgs.Some? then Err(ValueError("Cannot specify eval_args for reward model"))
    else
      Ok(("python -m " + script + " " + "    ++skip_filled=True " + "    ++output_dir=" + dir + " "
          + "    ++random_seed=" + IntOrNone(seed) + " " + " " + extra + " ", postprocess))
  }

  /** `get_math_judge_cmd`: like the reward-model run, with its own error message. */
  function MathJudgeCmd(dir: string, extra: string, seed: Seed, evalArgs: Option<string>,
                        postprocess: Option<string>, script: string): (r: Result<(string, Option<string>)>)
    ensures r.Err? <==> evalArgs.Some?
    ensures r.Err? ==> r.error == ValueError("Cannot specify eval_args for math judge")
    ensures r.Ok? ==> r.value.1 == postprocess
  {
    if evalArgs.Some? then Err(ValueError("Cannot specify eval_args for math judge"))
    else
      Ok(("python -m " + script + " " + "    ++skip_filled=True " + "    ++output_dir=" + dir + " "
          + "    ++random_seed=" + IntOrNone(seed) + " " + " " + extra + " ", postprocess))
  }

  /** `get_genselect_cmd`: reads the comparison instances under the output directory. */
  function GenSelectCmd(dir: string, extra: string, seed: Seed, evalArgs: Option<string>,
                        postprocess: Option<string>, script: string): (r: Result<(string, Option<string>)>)
    ensures r.Err? <==> evalArgs.Some?
    ensures r.Err? ==> r.error == ValueError("Cannot specify eval_args for genselect")
    ensures r.Ok? ==> r.value.1 == postprocess
  {
    if evalArgs.Some? then Err(ValueError("Cannot specify eval_args for genselect"))
    else
      Ok(("python -m " + script + " " + "    ++skip_filled=True " + "    ++input_dir=" + dir + "/comparison_instances "
          + "    ++output_dir=" + dir + " " + "    ++inference.random_seed=" + IntOrNone(seed) + " "
          + "    ++inference.temperature=0.7 " + "    ++inference.tokens_to_generate=2048 "
          + "    ++inference.top_k=0 " + "    ++inference.top_p=0.95 " + " " + extra + " ", postprocess))
  }

  /**
    `client_command_factories[generation_type](...)`: the client command of one unit. Only
    `generate` looks at the chunk; the other types refuse `eval_args` and pass the
    post-processing command through unchanged.
   */
  function ClientCommand(t: GenerationType, h: Helpers, dir: string, extra: string, seed: Seed,
                         evalArgs: Option<string>, chunk: Chunk, numChunks: Option<int>,
                         postprocess: Option<string>, script: string, prefix: string): (r: Result<(string, Option<string>)>)
    ensures t != Generate ==> (r.Err? <==> evalArgs.Some?) && (r.Ok? ==> r.value.1 == postprocess)
    ensures t == Generate ==> (r.Err? <==> chunk.Some? && (numChunks.None? || !(-numChunks.value <= chunk.value < numChunks.value)))
    ensures t == Generate && r.Ok? ==> r.value.1.Some?
  {
    match t
    case Generate =>
      var g :- GenerationCmd(h, dir, extra, seed, evalArgs, chunk, numChunks, postprocess, script, prefix);
      Ok((g.0, Some(g.1)))
    case Reward => RewardCmd(dir, extra, seed, evalArgs, postprocess, script)
    case MathJudge => MathJudgeCmd(dir, extra, seed, evalArgs, postprocess, script)
    case GenSelect => GenSelectCmd(dir, extra, seed, evalArgs, postprocess, script)
  }

  // ---------------------------------------------------------------------------
  // configure_client

  /** The server a task boots next to its client. */
  datatype ServerConfig = ServerConfig(
    modelPath: Option<string>, serverType: string, numGpus: int, numNodes: int,
    serverArgs: string, serverEntrypoint: Option<string>, serverPort: int)

  /** What `configure_client` returns: the server to boot (if any), the client arguments, the address and port. */
  datatype ClientSetup = ClientSetup(config: Option<ServerConfig>, extraArguments: string, address: string, port: Option<int>)

  const LocalhostPrefix := "localhost:"

  /**
    `configure_client`. With no server address the model is hosted by the task on `freePort`,
    the port drawn by `get_free_port` (the `serverPort` argument is overwritten and never used);
    hosting needs `server_gpus`. Otherwise the client is pointed at the external address.
   */
  function ConfigureClient(t: GenerationType, serverGpus: Option<int>, serverType: string,
                           serverAddress: Option<string>, serverPort: Option<int>, serverNodes: int,
                           model: Option<string>, serverArgs: string, serverEntrypoint: Option<string>,
                           extra: string, freePort: int): (r: Result<ClientSetup>)
    ensures r.Err? <==> serverAddress.None? && serverGpus.None?
    ensures r.Err? ==> r.error == AssertionError("Need to specify server_gpus if hosting the model")
    ensures r.Ok? && serverAddress.None? ==>
      && r.value.config == Some(ServerConfig(model, serverType, serverGpus.value, serverNodes, serverArgs, serverEntrypoint, freePort))
      && r.value.address == LocalhostPrefix + IntToStr(freePort)
      && r.value.port == Some(freePort)
      && StartsWith(r.value.extraArguments, extra)
    ensures r.Ok? && serverAddress.Some? ==>
      && r.value.config.None? && r.value.port.None?
      && r.value.address == serverAddress.value
      && StartsWith(r.value.extraArguments, extra)
  {
    if serverAddress.None? then
      if serverGpus.None? then Err(AssertionError("Need to specify server_gpus if hosting the model"))
      else
        var config := ServerConfig(model, serverType, serverGpus.value, serverNodes, serverArgs, serverEntrypoint, freePort);
        var args := extra + " ++server.server_type=" + serverType + " ++server.host=localhost ++server.port="
          + IntToStr(freePort) + " ";
        Ok(ClientSetup(Some(config), args, LocalhostPrefix + IntToStr(freePort), Some(freePort)))
    else
      var args := extra + " ++server.server_type=" + serverType + " ++server.base_url=" + serverAddress.value + " ++server.model=" + StrOrNone(model) + " ";
      Ok(ClientSetup(None, args, serverAddress.value, None))
  }

  /**
    A hosted setup is consistent: the port in the address parses back to the returned port and
    to the port the server config boots on, and the client is told that same port.
   */
  lemma HostedSetupConsistent(t: GenerationType, serverGpus: Option<int>, serverType: string,
                              serverPort: Option<int>, serverNodes: int, model: Option<string>,
                              serverArgs: string, serverEntrypoint: Option<string>, extra: string, freePort: int)
    requires serverGpus.Some?
    ensures var r := ConfigureClient(t, serverGpus, serverType, None, serverPort, serverNodes, model,
                                     serverArgs, serverEntrypoint, extra, freePort);
      && r.Ok? && r.value.port.Some? && r.value.config.Some?
      && StartsWith(r.value.address, LocalhostPrefix)
      && ParseInt(r.value.address[|LocalhostPrefix|..]) == Ok(r.value.port.value)
      && r.value.config.value.serverPort == r.value.port.value
      && r.value.extraArguments == extra + " ++server.server_type=" + serverType + " ++server.host=localhost ++server.port="
           + IntToStr(r.value.port.value) + " "
  {
    PortRoundTrip(freePort);
  }

  lemma PortRoundTrip(port: int)
    ensures ParseInt((LocalhostPrefix + IntToStr(port))[|LocalhostPrefix|..]) == Ok(port)
  {
    var p := LocalhostPrefix;
    assert (p + IntToStr(port))[|p|..] == IntToStr(port);
    ParseIntRoundTrip(port);
  }

  /** An external setup hands the client the address and the model name (`None` when unset). */
  lemma ExternalSetup(t: GenerationType, serverGpus: Option<int>, serverType: string, address: string,
                      serverPort: Option<int>, serverNodes: int, model: Option<string>,
                      serverArgs: string, serverEntrypoint: Option<string>, extra: string, freePort: int)
    ensures ConfigureClient(t, serverGpus, serverType, Some(address), serverPort, serverNodes, model,
                            serverArgs, serverEntrypoint, extra, freePort)
         == Ok(ClientSetup(None, extra + " ++server.server_type=" + serverType + " ++server.base_url=" + address
                                 + " ++server.model=" + StrOrNone(model) + " ", address, None))
  {
  }
}
