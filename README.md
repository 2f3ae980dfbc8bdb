# NeMo-Skills generation and evaluation planner, in Dafny

This project models the planning core of the NeMo-Skills pipeline commands `generate` and `eval`
(`nemo_skills/pipeline/generate.py`, `nemo_skills/pipeline/eval.py`). It covers four parts.

**Work units and completion.** A generation run is split into work units. A unit is a random seed
(or none) and a chunk id (or none). Each unit writes an output file
`<output_dir>/<prefix>[-rs<seed>].jsonl` (chunked through `get_chunked_filename`). When it
finishes, the unit touches `<output file>.done`. Before launching, `get_remaining_jobs` decides
which units still need a run:

- it tests every expected unit's marker on the host that holds the output directory;
- each missing marker prints a `MISSING:<seed>:<chunk>` line;
- it parses the printed lines back into an insertion-ordered `seed -> [chunk ids]` dictionary.

**Client commands.** For each remaining unit the planner builds:

- the client command (`get_cmd` and its reward-model, math-judge and genselect variants);
- the server configuration (`configure_client`);
- a chain of `dependent_jobs + 1` tasks, each depending on the one before it.

**Evaluation.** `eval` parses `benchmark:seeds` pairs and builds one command list (greedy and
sampled runs, per chunk). It then deals the commands round-robin over `num_jobs` jobs. A job
needs a sandbox when any of its benchmarks does.

**How the model works.** Pure logic is written as functions, and the proved properties are
lemmas about those functions. The loops of the source are methods, and each is proved equal to
the function that specifies it. A few things are parameters of the model rather than modelled
code:

- The helpers `get_chunked_filename`, `compute_chunk_ids` and `str_ids_to_list` are function
  values (`NemoUtils.Helpers`). The only facts assumed about them are stated in
  `ChunkNamingAssumed`.
- The host file system is the set of host paths that exist.
- The free-port source is a function from unit index to port.
- The per-benchmark defaults of `add_default_args` are a function from benchmark name to
  arguments.

Python's `str(int)`, `int(str)`, `split`, `join`, `strip`, `splitlines`, `startswith`,
`str.replace`, `os.path.join`, `shlex.quote`, `range`, list indexing and `xs[i::n]` slicing are
spelled out in the `PyStr` module and in the modules that use them.

Where the documented behaviour and the code disagree, the model follows the code (the one
exception is the host path of a marker, listed under Findings):

- `configure_client` ignores the `server_port` it is given and always uses the free port it
  draws itself.
- `eval` launches a job for every one of the `num_jobs` batches, even an empty one.
- The completion probe splits its marker tests into groups of 16 only when there are more than
  16 seeds, not more than 16 tests.
- Chunked file names are whatever `get_chunked_filename` returns. The model assumes of it only
  that the name stays relative and that it is injective.

## Model

| member | source | states |
|---|---|---|
| PyStr.ParseIntRoundTrip | nemo_skills/pipeline/generate.py:99-100 | `int(str(n)) == n` for every integer, so a seed or chunk printed by the probe reads back as itself |
| PyStr.IntToStrInjective | nemo_skills/pipeline/generate.py:60 | distinct integers print differently |
| PyStr.PathJoin | nemo_skills/pipeline/generate.py:67 | `os.path.join` keeps a relative name under the directory and returns an absolute name unchanged |
| PyStr.PathJoinInjective | nemo_skills/pipeline/generate.py:67 | joining two names that are both relative or both absolute onto one directory never merges them |
| PyStr.Range | nemo_skills/pipeline/generate.py:550 | `range(lo, hi)` has `hi - lo` elements (none when `hi <= lo`), the i-th being `lo + i` |
| Naming.RsFilenameForms | nemo_skills/pipeline/generate.py:59-67 | unchunked names are `<dir>/<prefix>.jsonl` and `<dir>/<prefix>-rs<seed>.jsonl`; chunked names stay inside `<dir>/` |
| Naming.BaseNameInjective | nemo_skills/pipeline/generate.py:59-62 | distinct seeds, including no seed, give distinct base file names |
| Naming.RsFilenameInjective | nemo_skills/pipeline/generate.py:59-67 | two units of the same chunking mode never share an output file |
| Naming.DoneFileInjective | nemo_skills/pipeline/generate.py:80 | two units of the same chunking mode never share a `.done` marker |
| Naming.ExpectedDoneFiles | nemo_skills/pipeline/generate.py:70-81 | the dict's keys are the distinct (seed, chunk) pairs in seed-major order, and every key maps to its own output file plus `.done` |
| Naming.ExpectedKeys | nemo_skills/pipeline/generate.py:74-80 | a pair is a key exactly when its seed is requested and its chunk is requested; no key repeats |
| Naming.CrossMembers | nemo_skills/pipeline/generate.py:75-76 | the nested seed/chunk loop visits exactly the pairs of a requested seed and a requested chunk |
| Probe.TagChars | nemo_skills/pipeline/generate.py:99-100 | a printed seed or chunk is non-empty and holds no space, colon or newline |
| Probe.TagRoundTrip | nemo_skills/pipeline/generate.py:99-129 | reading back a printed tag (`NONE` or decimal) gives the original seed or chunk |
| Probe.MissingLineChars | nemo_skills/pipeline/generate.py:101 | a `MISSING:` line is non-empty and holds no whitespace or newline, so strip and splitlines leave it whole |
| Probe.SplitMissingLine | nemo_skills/pipeline/generate.py:101-127 | splitting a `MISSING:` line on `:` gives exactly three fields: the marker word, the seed tag and the chunk tag |
| Probe.LineRoundTrip | nemo_skills/pipeline/generate.py:101-129 | the line a failed marker test prints parses back to that unit |
| Probe.RunGroupLines | nemo_skills/pipeline/generate.py:101-117 | one probe invocation prints the `MISSING:` lines of exactly the units whose host marker is absent, in test order |
| Probe.RunGroupChars | nemo_skills/pipeline/generate.py:101 | a probe's output is only `MISSING:` lines, so its lines survive stripping |
| Probe.StripLines | nemo_skills/pipeline/generate.py:111-119 | stripping probe output changes none of its lines |
| Probe.LinesJoinSnoc | nemo_skills/pipeline/generate.py:115 | joining group outputs with newlines concatenates their lines |
| Probe.ParseLinesAppend | nemo_skills/pipeline/generate.py:125-130 | parsing two blocks of lines gives the parse of the first then the second, and the first error stops the parse |
| Probe.ParseNonEmpty | nemo_skills/pipeline/generate.py:125-126 | empty lines never affect the parse |
| Probe.ParseMissingLines | nemo_skills/pipeline/generate.py:124-130 | parsing the `MISSING:` lines of a unit list gives back exactly that list, in order |
| Probe.SplitLinesParse | nemo_skills/pipeline/generate.py:125 | `splitlines` and a split on newlines parse to the same units |
| Probe.ParseOutput | nemo_skills/pipeline/generate.py:124-130 | any output whose lines are the `MISSING:` lines of some units parses to exactly those units |
| Probe.UnfinishedAppend | nemo_skills/pipeline/generate.py:105-115 | the units reported by two batches of tests are those of the first batch, then those of the second |
| Jobs.AppendAtLookup | nemo_skills/pipeline/generate.py:130 | `m[s].append(c)` extends the list under `s` by `c` and no other list |
| Jobs.AppendAtKeys | nemo_skills/pipeline/generate.py:130 | appending under a new key adds it at the end of the key order; an existing key keeps its place |
| Jobs.AddDefaultLookup | nemo_skills/pipeline/generate.py:134 | a bare `missing_jobs[seed]` read changes no list |
| Jobs.GroupBySeedLookup | nemo_skills/pipeline/generate.py:124-130 | grouping units by seed lists under each seed exactly that seed's chunks, in unit order |
| Jobs.GroupBySeedKeys | nemo_skills/pipeline/generate.py:124-130 | the grouped dict's keys are the units' seeds, each once, in order of first appearance |
| Jobs.AddDefaultsKeys | nemo_skills/pipeline/generate.py:133-134 | after the done loop's reads, the keys are the old keys plus every expected seed, and nothing else |
| Jobs.UniformLookup | nemo_skills/pipeline/generate.py:89-90 | with `rerun_done` every requested seed is a key, once, holding the whole chunk list |
| Jobs.UnitsMember | nemo_skills/pipeline/generate.py:630-639 | iterating the dict's items visits exactly the stored (seed, chunk) pairs |
| Remaining.HostPathOfMarker | nemo_skills/pipeline/generate.py:92-97 | with a relative prefix every marker lies under the output directory, and its host path is the host directory followed by the same relative path |
| Remaining.HostPathInjective | nemo_skills/pipeline/generate.py:96-97 | distinct units of one chunking mode are tested at distinct host paths |
| Remaining.HostPathAsWrittenMisses | nemo_skills/pipeline/generate.py:97 | replacing every occurrence of the output directory sends a finished unit's marker test to the wrong host path, so the unit is reported missing |
| Remaining.HostPathAsWrittenAgrees | nemo_skills/pipeline/generate.py:97 | the source's replace-all gives the corrected host path whenever the host directory equals the output directory, or the output directory occurs in the marker path only at its start |
| Remaining.GroupsFlatten | nemo_skills/pipeline/generate.py:107-108 | the groups of tests, concatenated, are the full list of tests |
| Remaining.GroupsSizes | nemo_skills/pipeline/generate.py:104-108 | every group holds between 1 and 16 tests, and every group but the last holds exactly 16 |
| Remaining.ProbeInGroups | nemo_skills/pipeline/generate.py:105-115 | sends one command per group of 16 in order, and the joined, stripped output lists exactly the unfinished units |
| Remaining.RunProbe | nemo_skills/pipeline/generate.py:103-121 | sends one command for at most 16 seeds and groups of 16 beyond that; either way the output lists exactly the unfinished units |
| Remaining.UnfinishedChecks | nemo_skills/pipeline/generate.py:95-101 | a unit is reported missing exactly when it is expected and its marker is absent at its host path |
| Remaining.ParseProbeOutput | nemo_skills/pipeline/generate.py:124-130 | the parse loop builds the seed-grouped dict of the units named in the output, or stops at the first malformed line |
| Remaining.SplitDone | nemo_skills/pipeline/generate.py:132-135 | the done loop keeps every missing list, adds every expected seed as a key, and groups by seed the expected units whose chunk is not listed as missing |
| Remaining.DoneUnitsMember | nemo_skills/pipeline/generate.py:133-135 | a unit is done exactly when it is expected and its chunk is not listed under its seed |
| Remaining.ProbePartition | nemo_skills/pipeline/generate.py:93-135 | every expected unit is listed missing exactly when its host marker is absent and listed done exactly when it is present; no other unit is listed |
| Remaining.ProbePartitionAsWritten | nemo_skills/pipeline/generate.py:93-135 | under the same conditions, the partition into missing and done units also holds for the marker test as written, with replace-all |
| Remaining.MissingJobsKeys | nemo_skills/pipeline/generate.py:124-135 | the returned dict has a key for every requested seed when any chunk is requested, and for no other seed |
| Remaining.GetRemainingJobs | nemo_skills/pipeline/generate.py:84-135 | with `rerun_done`, every seed gets all chunks and nothing is probed; otherwise the result holds the missing units, the done units and the probe commands described above |
| Commands.SeedArgs | nemo_skills/pipeline/generate.py:204-210 | sampling arguments are added exactly when a seed is given |
| Commands.EvalStage | nemo_skills/pipeline/generate.py:255-260 | the evaluation stage is appended exactly when `eval_args` is truthy |
| Commands.PyIndex | nemo_skills/pipeline/generate.py:225-227 | Python list indexing: defined for `-len <= i < len`, counting from the end for negative `i`, IndexError otherwise |
| Commands.ChunkMarkers | nemo_skills/pipeline/generate.py:217-222 | one marker per chunk in `range(num_chunks)` |
| Commands.ChunkMarkerList | nemo_skills/pipeline/generate.py:217-222 | the loop builds the markers of chunks `0 .. num_chunks-1` in order |
| Commands.MergeNamesEveryChunk | nemo_skills/pipeline/generate.py:217-235 | the merge command lists the output file of every chunk `0 .. num_chunks-1` in order, whatever chunks this run holds |
| Commands.ChunkPost | nemo_skills/pipeline/generate.py:224-240 | the chunked post-processing fails with IndexError exactly when the chunk id is outside Python's index range of the marker list |
| Commands.ChunkedPostCmd | nemo_skills/pipeline/generate.py:212-240 | the statements of the chunked branch compute the chunked post-processing |
| Commands.UnchunkedPostCmd | nemo_skills/pipeline/generate.py:242-251 | the statements of the unchunked branch compute the unchunked post-processing |
| Commands.GenerationCmd | nemo_skills/pipeline/generate.py:212-227 | `get_cmd` fails exactly for a chunk id with no `num_chunks` (TypeError from `range(None)`) or with an id outside `-num_chunks .. num_chunks-1` (IndexError) |
| Commands.GetCmd | nemo_skills/pipeline/generate.py:177-262 | the statements of `get_cmd` compute the command pair that `GenerationCmd` specifies |
| Commands.ChunkedPost | nemo_skills/pipeline/generate.py:212-240 | a chunked job touches its own chunk's marker, with a negative id counting from the end, and then merges all chunks |
| Commands.UnchunkedPost | nemo_skills/pipeline/generate.py:242-251 | an unchunked job touches its own marker, then runs the post-processing command if one is given |
| Commands.GenerationCmdStages | nemo_skills/pipeline/generate.py:196-260 | the command starts with the script, the unchunked output file and the seed arguments, and ends with the evaluation stage on this unit's output file |
| Commands.RewardCmd | nemo_skills/pipeline/generate.py:268-290 | fails with the reward-model ValueError exactly when `eval_args` is given; the post-processing command passes through unchanged |
| Commands.MathJudgeCmd | nemo_skills/pipeline/generate.py:293-313 | fails with the math-judge ValueError exactly when `eval_args` is given; the post-processing command passes through unchanged |
| Commands.GenSelectCmd | nemo_skills/pipeline/generate.py:316-341 | fails with the genselect ValueError exactly when `eval_args` is given; the post-processing command passes through unchanged |
| Commands.DefaultScript | nemo_skills/pipeline/generate.py:365-370 | every generation type's default client is a `nemo_skills.inference` module |
| Commands.ClientCommand | nemo_skills/pipeline/generate.py:358-363 | dispatch by generation type: the error conditions and post-processing of the chosen builder |
| Commands.ConfigureClient | nemo_skills/pipeline/generate.py:373-410 | fails exactly when the model is to be hosted with no `server_gpus`; a hosted model gets a server on the free port, reached at `localhost:<port>`; an external model gets no server and its own address |
| Commands.HostedSetupConsistent | nemo_skills/pipeline/generate.py:385-402 | for a hosted model the port in the address, the returned port, the server's port and the client's `++server.port` are one value |
| Commands.PortRoundTrip | nemo_skills/pipeline/generate.py:388 | the port read back from `localhost:<port>` is the port |
| Commands.ExternalSetup | nemo_skills/pipeline/generate.py:403-410 | an external model yields no server and no port, and client arguments naming its type, base URL and model |
| Generate.NormalizeRequest | nemo_skills/pipeline/generate.py:522-597 | the request fails exactly on chunking outside `generate` (that error first), on both seed options, or on text chunk ids without `num_chunks`; a positive `num_random_seeds` gives that many consecutive seeds from `starting_seed`, a negative one or no seeds at all the single seed None; otherwise the given seed list, or `str_ids_to_list` of the text, is kept (None when empty); the chunks are `compute_chunk_ids(chunk_ids, num_chunks)` when `num_chunks` is set, else the given chunk ids, else the single chunk None |
| Generate.PreTasks | nemo_skills/pipeline/generate.py:610-628 | exactly genselect runs one preprocessing task first |
| Generate.TaskName | nemo_skills/pipeline/generate.py:667-669 | every task name starts with the experiment name |
| Generate.UnitLaunch | nemo_skills/pipeline/generate.py:641-663 | a unit fails exactly as `configure_client` or its client builder fails; otherwise its command carries its seed and its server is the one `configure_client` sets up |
| Generate.Chain | nemo_skills/pipeline/generate.py:666-696 | a unit's chain has the requested length |
| Generate.ThreadChain | nemo_skills/pipeline/generate.py:665-696 | the inner loop adds `dependent_jobs + 1` tasks, the first after the initial tasks and each later one after its predecessor |
| Generate.PlanUnit | nemo_skills/pipeline/generate.py:640-696 | planning one more unit extends the plan by that unit's chain, or stops with that unit's error |
| Generate.PlanRow | nemo_skills/pipeline/generate.py:639-696 | one seed's chunks extend the plan in chunk order; the flag is set exactly when the seed has chunks |
| Generate.PlanTasks | nemo_skills/pipeline/generate.py:607-697 | the loops build the specified plan, and `has_tasks` holds exactly when some unit remains |
| Generate.PlanChainsErrExtends | nemo_skills/pipeline/generate.py:630-696 | the first unit that fails stops the whole plan with its error |
| Generate.PlanChainsLength | nemo_skills/pipeline/generate.py:630-696 | one chain per unit, each of the requested length |
| Generate.PlanLength | nemo_skills/pipeline/generate.py:610-696 | the plan holds the preprocessing task (genselect only, first, with no dependency) and then `dependent_jobs + 1` tasks per remaining unit |
| Generate.ChainsTask | nemo_skills/pipeline/generate.py:630-696 | the task at each position belongs to the expected unit and chain step, and depends on the task before it |
| Generate.PlanTask | nemo_skills/pipeline/generate.py:630-696 | task `j` of unit `k` is at a fixed position, carries that unit's name, command and server, and depends on the initial tasks (`j = 0`) or on the task just before it |
| Generate.LaunchedUnits | nemo_skills/pipeline/generate.py:89-639 | with `rerun_done` every requested unit is planned; otherwise exactly the requested units whose host marker is absent |
| Generate.PlanGenerate | nemo_skills/pipeline/generate.py:522-702 | normalising the request, finding the remaining jobs and running the task loop compute GeneratePlan: the request's error, or the plan of the remaining units; `has_tasks`, which decides whether the experiment is run and returned, holds exactly when some unit remains (so a genselect call with nothing left runs nothing, although its preprocessing task was added) |
| Generate.GeneratePlanUnits | nemo_skills/pipeline/generate.py:522-697 | a `generate` call plans a chain for a unit exactly when its seed and chunk are requested and, without `rerun_done`, its host marker is absent; the plan holds the genselect preprocessing task when there is one and `dependent_jobs + 1` tasks per such unit, and nothing else |
| Generate.GeneratePlanIsPlan | nemo_skills/pipeline/generate.py:522-697 | bridge, not a property of its own: on a normalised request GeneratePlan unfolds to the task loop over the remaining units with the pipeline's own launcher, which lets Generate.PlanUnitTask describe each task of GeneratePlan |
| Generate.PlanUnitTask | nemo_skills/pipeline/generate.py:630-696 | with the pipeline's launcher, task `j` of unit `k` carries the unit's name and the command and server that `configure_client` and the client builder give it on port `ports(k)`, and depends on the initial tasks (`j = 0`) or on the task just before it |
| Eval.ResolveChunks | nemo_skills/pipeline/eval.py:282-285 | a truthy `num_chunks` gives `compute_chunk_ids`; `num_chunks == 0` keeps given ids as they are and fails on text ids; otherwise no chunking |
| Eval.ChunkParams | nemo_skills/pipeline/eval.py:54-58 | one run without chunking, one per chunk id otherwise |
| Eval.CommandsShape | nemo_skills/pipeline/eval.py:44-70 | one command per run; each starts with the generation of the benchmark into the named output followed by its chunk parameter (`++chunk_id=null ++num_chunks=null` when not chunked, `++chunk_id=<chunk_ids[i]> ++num_chunks=<num_chunks>` for the `i`-th command otherwise) and ends with the evaluation of that run's (chunked) output file |
| Eval.GreedyCmds | nemo_skills/pipeline/eval.py:44-70 | the loop builds the greedy commands, one per run |
| Eval.OutputNamesDistinct | nemo_skills/pipeline/eval.py:47-86 | sampled outputs are `output-rs<seed>`, greedy is `output`, and distinct seeds never share an output |
| Eval.SamplingCmds | nemo_skills/pipeline/eval.py:73-91 | a sampled run is the greedy command shape with its own output name and sampling arguments |
| Eval.ParsePair | nemo_skills/pipeline/eval.py:316 | a piece parses exactly when it has one colon and an integer count |
| Eval.ParsePairsOk | nemo_skills/pipeline/eval.py:316 | the list of pairs parses exactly when every piece parses, and then holds each piece's pair in order |
| Eval.ParsePairsFirstError | nemo_skills/pipeline/eval.py:316 | a failed parse reports the error of the first bad piece |
| Eval.ToDictGet | nemo_skills/pipeline/eval.py:316 | in the benchmark dict, the last count given for a name wins |
| Eval.ToDictNames | nemo_skills/pipeline/eval.py:316 | the dict keeps names in order of first appearance, each once |
| Eval.ParseBenchmarks | nemo_skills/pipeline/eval.py:287-316 | a space anywhere is the commas ValueError; a parsed dict names each benchmark once |
| Eval.ParseRender | nemo_skills/pipeline/eval.py:316 | rendering a dict of plain names as `name:count,...` parses back to that dict |
| Eval.BenchCmdsCount | nemo_skills/pipeline/eval.py:337-362 | a benchmark contributes one greedy command per run when greedy applies, plus one per run for each of its seeds |
| Eval.AddSamples | nemo_skills/pipeline/eval.py:352-362 | the seed loop appends each seed's runs in seed order |
| Eval.AddBenchmark | nemo_skills/pipeline/eval.py:323-362 | one benchmark's greedy and sampled commands are appended, tagged with the benchmark |
| Eval.BuildWorkList | nemo_skills/pipeline/eval.py:322-362 | the loop builds the specified command list and records every benchmark's sandbox requirement |
| Eval.WorkListBenchmarks | nemo_skills/pipeline/eval.py:322-362 | every listed command is tagged with a requested benchmark |
| Eval.Batches | nemo_skills/pipeline/eval.py:371-378 | one batch per job; none when `num_jobs <= 0` |
| Eval.BuildBatches | nemo_skills/pipeline/eval.py:371-378 | the loop builds the round-robin batches |
| Eval.StrideSlot | nemo_skills/pipeline/eval.py:374 | the p-th command of batch `i` is command `i + p*num_jobs` |
| Eval.StrideCovers | nemo_skills/pipeline/eval.py:371-378 | command `n` is dealt to batch `n % num_jobs` at position `n / num_jobs` |
| Eval.StrideBalanced | nemo_skills/pipeline/eval.py:371-378 | batch sizes differ by at most one, earlier batches being the larger |
| Eval.StrideEmpty | nemo_skills/pipeline/eval.py:374 | a batch whose index is past the last command is empty |
| Eval.StrideSingle | nemo_skills/pipeline/eval.py:364-374 | with `num_jobs == -1` every command gets a batch of its own |
| Eval.BatchAt | nemo_skills/pipeline/eval.py:371-378 | bridge, not a property of its own: unfolds a batch into the commands of its slots and the set of their benchmarks, for Eval.BatchFrom and Eval.BatchHas |
| Eval.BatchFrom | nemo_skills/pipeline/eval.py:371-378 | a benchmark in a batch belongs to a command dealt to that batch |
| Eval.BatchHas | nemo_skills/pipeline/eval.py:371-378 | every command's benchmark is in the batch the command is dealt to |
| Eval.BatchSandbox | nemo_skills/pipeline/eval.py:383-385 | a job needs the sandbox exactly when `with_sandbox` is set or a benchmark of one of its commands requires it |
| Eval.JobNamesDistinct | nemo_skills/pipeline/eval.py:392 | jobs are named `<expname>-<idx>`, all distinct |
| Eval.Jobs | nemo_skills/pipeline/eval.py:381-392 | one job per batch |
| Eval.LaunchJobs | nemo_skills/pipeline/eval.py:381-399 | the launch loop builds one job per batch with its commands, name and sandbox flag |
| Eval.PlanEval | nemo_skills/pipeline/eval.py:282-399 | the steps of `eval` compute the specified job list: chunk resolution, benchmark parsing, work list, job count and batching, or the first error |

## Left out

- `get_remaining_jobs` shell execution and SSH tunnel: the probe runs against the set of host paths
  that exist. The `slurm` flag selects the tunnel branch, which strips its output.
- `get_unmounted_path` and the cluster configuration are inputs. The host directory is a parameter.
- Logging (`generate.py` lines 137-172 and the log calls in both commands) has no effect on the plan.
  So has the `print` in `get_rm_cmd`.
- The experiment backend (`get_exp`, `add_task`, `run_exp`, `wrap_cmd`, `get_generation_command`,
  `check_mounts`, `get_cluster_config`) is external. A task is modelled as its name, command, server
  and dependency list.
- `get_free_port` is a function from unit index to port: `ports(k)` is the port that
  `configure_client` draws for the `k`-th planned unit (`generate.py` line 386). The port chosen at
  `generate.py` line 641 (random, or 5000 when `get_random_port` is false) is passed in and then
  discarded, so it does not appear in the model. In `eval` the port belongs to the server setup,
  which is left out below.
- The `sandbox_port` argument of `add_task` (None, or 6000 when `get_random_port` is false;
  `generate.py` lines 665-696, `eval.py` lines 381-407) is not modelled, and neither is the
  `get_random_port` flag it depends on.
- `add_default_args` in `eval.py` reads dataset modules. It is a function from benchmark name to
  generation arguments, evaluation arguments and the sandbox flag.
- The server setup of `eval` (`eval.py` lines 290-314) is not part of this model. It mirrors
  `configure_client`, which is modelled.
- Weights & Biases logging parameters are not part of this model, and neither is the
  `GenerationTask` module lookup (`generate.py` lines 530-545, 578-591). The client script is an
  input.
- `local_sandbox_server.py` is not part of this model. It runs code inside a launched job.
- `get_chunked_filename`, `compute_chunk_ids` and `str_ids_to_list` are kept uninterpreted. Only
  the facts in `ChunkNamingAssumed` are assumed: chunking keeps a relative name relative and is
  injective.
- PyStr.ParseInt: accepts only an optional sign followed by ASCII digits. Python's `int()` also
  accepts surrounding whitespace, single underscores between digits and non-ASCII decimal
  digits; none of these is modelled. The probe only ever prints `str(int)` output, which
  ParseInt reads back exactly (PyStr.ParseIntRoundTrip).
- Eval.ParsePair: a user-typed count such as `1_0`, one with surrounding spaces or tabs (`gsm8k: 4`),
  or one written in non-ASCII digits is accepted by `int()` but rejected by the model with the
  ValueError of a bad count, because the count goes through PyStr.ParseInt. A count of ASCII
  digits with an optional sign parses as in the source.
- Remaining.GetRemainingJobs, Remaining.ProbePartition, Remaining.UnfinishedChecks,
  Generate.LaunchedUnits and Generate.GeneratePlanUnits: the marker test uses the corrected host
  path Remaining.HostPath, which replaces only the leading output directory (see Findings).
  Remaining.HostPathAsWrittenAgrees and Remaining.ProbePartitionAsWritten prove that the source's
  replace-all gives the same host path whenever the host directory equals the output directory,
  or the output directory occurs in the marker path only at its start.
- Probe.SplitLinesParse: `splitlines` is modelled as a split on `\n` only. The probe output holds
  no other line breaks.
- Generate.NormalizeRequest: with chunk ids given as text and a falsy `num_chunks`, the source goes
  on with a string where a list is expected. The model stops with a TypeError there.
- Eval.ResolveChunks: with `num_chunks == 0` and chunk ids given as text, the source would iterate
  the characters of the text. The model stops with a TypeError.
- Integers are unbounded, as Python's are. No width or wrap-around applies.

## Findings

| source | as written | input that shows it | evidently intended | confidence | as-written member | corrected member |
|---|---|---|---|---|---|---|
| nemo_skills/pipeline/generate.py:97 | `filepath.replace(output_dir, status_dir)` replaces every occurrence of the output directory in the marker path | output dir `/out`, host dir `/host`, prefix `output`, no seed or chunk: the marker `/out/output.jsonl.done` becomes `/host/hostput.jsonl.done`, so a finished unit is reported missing and rerun | replace only the leading output directory, giving `/host/output.jsonl.done` | not executed | Remaining.HostPathAsWrittenMisses | Remaining.HostPath |
