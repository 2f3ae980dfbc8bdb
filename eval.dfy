/**
  The planning part of `eval` (nemo_skills/pipeline/eval.py): every benchmark of the request is
  expanded into one evaluation command per seed and dataset chunk, and the commands are dealt
  round-robin into jobs, each of which asks for a sandbox when one of its benchmarks needs one.
 */
module Eval {
  import opened Wrappers
  import opened PyStr
  import opened NemoUtils
  import opened Naming
  import opened Seqs

  // ---------------------------------------------------------------------------
  // Chunking

  /**
    The chunk ids `eval` hands to the command builders, or None when the dataset is not chunked:
    a truthy `num_chunks` resolves them, `num_chunks == 0` keeps a given id list as is.
   */
  function ResolveChunks(h: Helpers, numChunks: Option<int>, chunkIds: IdsArg): (r: Result<Option<seq<int>>>)
    ensures r.Err? <==> numChunks == Some(0) && chunkIds.Text?
    ensures r.Ok? ==> (r.value.Some? <==> TruthyInt(numChunks) || (numChunks == Some(0) && chunkIds.Ids?))
    ensures TruthyInt(numChunks) ==> r == Ok(Some(h.computeChunkIds(chunkIds, numChunks.value)))
    ensures numChunks == Some(0) && chunkIds.Ids? ==> r == Ok(Some(chunkIds.ids))
  {
    if TruthyInt(numChunks) then Ok(Some(h.computeChunkIds(chunkIds, numChunks.value)))
    else if numChunks.None? then Ok(None)
    else
      match chunkIds
      case Absent => Ok(None)
      case Ids(ids) => Ok(Some(ids))
      case Text(_) => Err(TypeError)
  }

  /** `num_runs`: how many chunks every benchmark seed is split into. */
  function NumRuns(chunks: Option<seq<int>>): nat {
    if chunks.Some? then |chunks.value| else 1
  }

  // ---------------------------------------------------------------------------
  // One benchmark, one seed: `get_greedy_cmd` and `get_sampling_cmd`

  predicate Unchunked(numChunks: Option<int>, chunkIds: Option<seq<int>>) {
    numChunks.None? || chunkIds.None?
  }

  /** `++chunk_id={chunk_id} ++num_chunks={num_chunks}`. */
  function ChunkParam(chunkId: int, numChunks: int): string {
    "++chunk_id=" + IntToStr(chunkId) + " ++num_chunks=" + IntToStr(numChunks)
  }

  /** The `++chunk_id=.. ++num_chunks=..` argument of each command. */
  function ChunkParams(numChunks: Option<int>, chunkIds: Option<seq<int>>): (r: seq<string>)
    ensures |r| == if Unchunked(numChunks, chunkIds) then 1 else |chunkIds.value|
  {
    if Unchunked(numChunks, chunkIds) then [NullChunkParam]
    else
      var ids := chunkIds.value;
      seq(|ids|, i requires 0 <= i < |ids| => ChunkParam(ids[i], numChunks.value))
  }

  /** The file each command's evaluation step reads: the chunk's file, or the whole output. */
  function ChunkedNames(h: Helpers, name: string, numChunks: Option<int>, chunkIds: Option<seq<int>>): (r: seq<string>)
    ensures |r| == if Unchunked(numChunks, chunkIds) then 1 else |chunkIds.value|
  {
    if Unchunked(numChunks, chunkIds) then [name]
    else
      var ids := chunkIds.value;
      seq(|ids|, i requires 0 <= i < |ids| => h.chunkedFilename(ids[i], name))
  }

  // The fixed text of an evaluation command.
  const EchoCall := "echo \"Evaluating benchmark "
  const GenerateCall := "\" && python -m nemo_skills.inference.generate     ++output_file="
  const EvaluateCall := "python -m nemo_skills.evaluation.evaluate_results     ++input_files="
  const NullChunkParam := "++chunk_id=null ++num_chunks=null"

  /** `{output_dir}/eval-results/{benchmark}/{name}`. */
  function ResultsPath(outputDir: string, benchmark: string, name: string): string {
    outputDir + "/eval-results/" + benchmark + "/" + name
  }

  /** The start of a command, up to the file its generation step writes. */
  function GenerationHead(benchmark: string, outputDir: string, name: string): string {
    EchoCall + benchmark + GenerateCall
    + ResultsPath(outputDir, benchmark, name) + " "
  }

  /** The end of a command: the evaluation step and the file it reads. */
  function EvaluationTail(benchmark: string, outputDir: string, chunkedName: string, evalArgs: string): string {
    EvaluateCall
    + ResultsPath(outputDir, benchmark, chunkedName) + " " + evalArgs
  }

  /** One generate-then-evaluate command. */
  function EvalCommand(benchmark: string, outputDir: string, name: string, param: string, chunkedName: string,
                       extra: string, evalArgs: string): string {
    GenerationHead(benchmark, outputDir, name) + ("    " + param + "     " + extra + " && ")
    + EvaluationTail(benchmark, outputDir, chunkedName, evalArgs)
  }

  /** The commands `get_greedy_cmd` returns, one per chunk parameter. */
  function Commands(h: Helpers, benchmark: string, outputDir: string, name: string, evalArgs: string, extra: string,
                    numChunks: Option<int>, chunkIds: Option<seq<int>>): seq<string> {
    var params := ChunkParams(numChunks, chunkIds);
    var names := ChunkedNames(h, name, numChunks, chunkIds);
    seq(|params|, i requires 0 <= i < |params| =>
      EvalCommand(benchmark, outputDir, name, params[i], names[i], extra, evalArgs))
  }

  /** A command's generation step ends with its chunk parameter. */
  lemma CommandParam(benchmark: string, outputDir: string, name: string, param: string, chunkedName: string,
                     extra: string, evalArgs: string)
    ensures StartsWith(EvalCommand(benchmark, outputDir, name, param, chunkedName, extra, evalArgs),
                       GenerationHead(benchmark, outputDir, name) + "    " + param)
  {
    var head := GenerationHead(benchmark, outputDir, name);
    var tail := EvaluationTail(benchmark, outputDir, chunkedName, evalArgs);
    assert EvalCommand(benchmark, outputDir, name, param, chunkedName, extra, evalArgs)
        == (head + "    " + param) + ("     " + extra + " && ") + tail;
    Affixes(head + "    " + param, "     " + extra + " && ", tail);
  }

  /** Command `i` generates with chunk parameter `i` and evaluates chunk file `i`. */
  lemma CommandAt(h: Helpers, benchmark: string, outputDir: string, name: string, evalArgs: string,
                  extra: string, numChunks: Option<int>, chunkIds: Option<seq<int>>, i: nat)
    requires i < |Commands(h, benchmark, outputDir, name, evalArgs, extra, numChunks, chunkIds)|
    ensures var cmd := Commands(h, benchmark, outputDir, name, evalArgs, extra, numChunks, chunkIds)[i];
      && StartsWith(cmd, GenerationHead(benchmark, outputDir, name))
      && StartsWith(cmd, GenerationHead(benchmark, outputDir, name) + "    " + ChunkParams(numChunks, chunkIds)[i])
      && EndsWith(cmd, EvaluationTail(benchmark, outputDir, ChunkedNames(h, name, numChunks, chunkIds)[i], evalArgs))
  {
    var param := ChunkParams(numChunks, chunkIds)[i];
    var chunkedName := ChunkedNames(h, name, numChunks, chunkIds)[i];
    CommandParam(benchmark, outputDir, name, param, chunkedName, extra, evalArgs);
    Affixes(GenerationHead(benchmark, outputDir, name), "    " + param + "     " + extra + " && ",
            EvaluationTail(benchmark, outputDir, chunkedName, evalArgs));
  }

  /**
    One command when the dataset is not chunked, otherwise one per chunk id in order; every command
    generates into the benchmark's whole output file with its own chunk parameter (`null` for both
    values when not chunked) and evaluates the file of its own chunk.
   */
  lemma CommandsShape(h: Helpers, benchmark: string, outputDir: string, name: string, evalArgs: string,
                      extra: string, numChunks: Option<int>, chunkIds: Option<seq<int>>)
    ensures var cmds := Commands(h, benchmark, outputDir, name, evalArgs, extra, numChunks, chunkIds);
      && |cmds| == (if Unchunked(numChunks, chunkIds) then 1 else |chunkIds.value|)
      && (forall i :: 0 <= i < |cmds| ==> StartsWith(cmds[i], GenerationHead(benchmark, outputDir, name)))
      && (Unchunked(numChunks, chunkIds) ==>
            && StartsWith(cmds[0], GenerationHead(benchmark, outputDir, name) + "    " + NullChunkParam)
            && EndsWith(cmds[0], EvaluationTail(benchmark, outputDir, name, evalArgs)))
      && (!Unchunked(numChunks, chunkIds) ==> forall i :: 0 <= i < |cmds| ==>
            && StartsWith(cmds[i], GenerationHead(benchmark, outputDir, name) + "    "
                                   + ChunkParam(chunkIds.value[i], numChunks.value))
            && EndsWith(cmds[i], EvaluationTail(benchmark, outputDir, h.chunkedFilename(chunkIds.value[i], name), evalArgs)))
  {
    var cmds := Commands(h, benchmark, outputDir, name, evalArgs, extra, numChunks, chunkIds);
    forall i | 0 <= i < |cmds|
      ensures StartsWith(cmds[i], GenerationHead(benchmark, outputDir, name) + "    " + ChunkParams(numChunks, chunkIds)[i])
      ensures StartsWith(cmds[i], GenerationHead(benchmark, outputDir, name))
      ensures EndsWith(cmds[i], EvaluationTail(benchmark, outputDir, ChunkedNames(h, name, numChunks, chunkIds)[i], evalArgs))
    {
      CommandAt(h, benchmark, outputDir, name, evalArgs, extra, numChunks, chunkIds, i);
    }
  }

  /** `get_greedy_cmd`: the commands of one benchmark's run, built chunk by chunk. */
  method GreedyCmds(h: Helpers, benchmark: string, outputDir: string, name: string, evalArgs: string, extra: string,
                    numChunks: Option<int>, chunkIds: Option<seq<int>>) returns (cmds: seq<string>)
    ensures cmds == Commands(h, benchmark, outputDir, name, evalArgs, extra, numChunks, chunkIds)
  {
    var params := ChunkParams(numChunks, chunkIds);
    var names := ChunkedNames(h, name, numChunks, chunkIds);
    ghost var all := Commands(h, benchmark, outputDir, name, evalArgs, extra, numChunks, chunkIds);
    cmds := [];
    for k := 0 to |params|
      invariant cmds == all[..k]
    {
      var cmd := EvalCommand(benchmark, outputDir, name, params[k], names[k], extra, evalArgs);
      assert cmd == all[k];
      PrefixSnoc(all, k);
      cmds := cmds + [cmd];
    }
    FullSlice(all);
  }

  /** The output file of the greedy run. */
  const GreedyName := "output.jsonl"

  /** The output file of the sampling run with seed `rs`. */
  function SampleName(rs: int): string {
    "output-rs" + IntToStr(rs) + ".jsonl"
  }

  /** The generation arguments of the sampling run with seed `rs`. */
  function SampleArgs(rs: int, extra: string): string {
    " inference.random_seed=" + IntToStr(rs) + " inference.temperature=0.7 " + extra
  }

  /**
    The output names follow the naming of generation runs, so different seeds, and the greedy run,
    write to different files.
   */
  lemma OutputNamesDistinct(rs1: int, rs2: int)
    ensures SampleName(rs1) == BaseName("output", Some(rs1)) && GreedyName == BaseName("output", None)
    ensures SampleName(rs1) != GreedyName
    ensures SampleName(rs1) == SampleName(rs2) ==> rs1 == rs2
  {
    assert "output" + "-rs" == "output-rs";
    assert "output" + ".jsonl" == GreedyName;
    if SampleName(rs1) == SampleName(rs2) {
      BaseNameInjective("output", Some(rs1), Some(rs2));
    }

  }

  /** `get_sampling_cmd`: the greedy builder with a seeded output name and sampling arguments. */
  method SamplingCmds(h: Helpers, benchmark: string, outputDir: string, rs: int, evalArgs: string, extra: string,
                      numChunks: Option<int>, chunkIds: Option<seq<int>>) returns (cmds: seq<string>)
    ensures cmds == Commands(h, benchmark, outputDir, SampleName(rs), evalArgs, SampleArgs(rs, extra), numChunks, chunkIds)
  {
    cmds := GreedyCmds(h, benchmark, outputDir, SampleName(rs), evalArgs, SampleArgs(rs, extra), numChunks, chunkIds);
  }

  // ---------------------------------------------------------------------------
  // The benchmark request `name:count,...`

  /** An insertion-ordered dict from benchmark names to sample counts, as its item list. */
  type Counts = seq<(string, int)>

  function Names(d: Counts): seq<string> {
    if d == [] then [] else [d[0].0] + Names(d[1..])
  }

  function Get(d: Counts, k: string): Option<int> {
    if d == [] then None else if d[0].0 == k then Some(d[0].1) else Get(d[1..], k)
  }

  /** `d[k] = v`: an existing key keeps its place and takes the new value; a new key goes last. */
  function Put(d: Counts, k: string, v: int): Counts {
    if d == [] then [(k, v)]
    else if d[0].0 == k then [(k, v)] + d[1..]
    else [d[0]] + Put(d[1..], k, v)
  }

  /** The dict a comprehension over `pairs` builds. */
  function ToDict(pairs: Counts): Counts {
    if pairs == [] then [] else Put(ToDict(pairs[..|pairs| - 1]), pairs[|pairs| - 1].0, pairs[|pairs| - 1].1)
  }

  /** The value the last pair with key `k` gives, if any. */
  function LastValue(pairs: Counts, k: string): Option<int> {
    if pairs == [] then None
    else if pairs[|pairs| - 1].0 == k then Some(pairs[|pairs| - 1].1)
    else LastValue(pairs[..|pairs| - 1], k)
  }

  function Firsts(pairs: Counts): seq<string> {
    if pairs == [] then [] else Firsts(pairs[..|pairs| - 1]) + [pairs[|pairs| - 1].0]
  }

  lemma {:induction false} PutGet(d: Counts, k: string, v: int, t: string)
    ensures Get(Put(d, k, v), t) == if t == k then Some(v) else Get(d, t)
    decreases |d|
  {
    if d != [] && d[0].0 != k {
      PutGet(d[1..], k, v, t);
    }
  }

  lemma {:induction false} PutNames(d: Counts, k: string, v: int)
    ensures Names(Put(d, k, v)) == if k in Names(d) then Names(d) else Names(d) + [k]
    decreases |d|
  {
    if d != [] && d[0].0 != k {
      PutNames(d[1..], k, v);
    }
  }

  /** A later pair overrides the value of an earlier one with the same key. */
  lemma {:induction false} ToDictGet(pairs: Counts, k: string)
    ensures Get(ToDict(pairs), k) == LastValue(pairs, k)
    decreases |pairs|
  {
    if pairs != [] {
      var init, last := pairs[..|pairs| - 1], pairs[|pairs| - 1];
      ToDictGet(init, k);
      PutGet(ToDict(init), last.0, last.1, k);
    }
  }

  /** The keys are the pairs' keys, each once, in order of first appearance. */
  lemma {:induction false} ToDictNames(pairs: Counts)
    ensures Names(ToDict(pairs)) == Dedup(Firsts(pairs))
    decreases |pairs|
  {
    if pairs != [] {
      var init, last := pairs[..|pairs| - 1], pairs[|pairs| - 1];
      ToDictNames(init);
      PutNames(ToDict(init), last.0, last.1);
      DedupSnoc(Firsts(init), last.0);
      DedupMembers(Firsts(init));
    }
  }

  /** `k, v = piece.split(":")` and `int(v)`. */
  function ParsePair(piece: string): (r: Result<(string, int)>)
    ensures r.Ok? <==> |Split(piece, ':')| == 2 && ParseInt(Split(piece, ':')[1]).Ok?
    ensures r.Ok? ==> r.value == (Split(piece, ':')[0], ParseInt(Split(piece, ':')[1]).value)
  {
    var parts := Split(piece, ':');
    if |parts| < 2 then Err(ValueError("not enough values to unpack (expected 2, got 1)"))
    else if |parts| > 2 then Err(ValueError("too many values to unpack (expected 2)"))
    else
      var v :- ParseInt(parts[1]);
      Ok((parts[0], v))
  }

  /** The pairs of all pieces, one by one. */
  function ParsePairs(pieces: seq<string>): Result<Counts> {
    if pieces == [] then Ok([])
    else
      var prev :- ParsePairs(pieces[..|pieces| - 1]);
      var p :- ParsePair(pieces[|pieces| - 1]);
      Ok(prev + [p])
  }

  /** Parsing succeeds exactly when every piece parses, and then keeps the pairs in piece order. */
  lemma {:induction false} ParsePairsOk(pieces: seq<string>)
    ensures ParsePairs(pieces).Ok? <==> forall i :: 0 <= i < |pieces| ==> ParsePair(pieces[i]).Ok?
    ensures ParsePairs(pieces).Ok? ==>
      |ParsePairs(pieces).value| == |pieces|
      && forall i :: 0 <= i < |pieces| ==> ParsePairs(pieces).value[i] == ParsePair(pieces[i]).value
    decreases |pieces|
  {
    if pieces != [] {
      var init := pieces[..|pieces| - 1];
      ParsePairsOk(init);
      assert forall j :: 0 <= j < |init| ==> pieces[j] == init[j];
    }
  }

  /** A failed parse reports the error of the first piece that does not parse. */
  lemma {:induction false} ParsePairsFirstError(pieces: seq<string>)
    requires ParsePairs(pieces).Err?
    ensures exists i :: 0 <= i < |pieces| && ParsePair(pieces[i]).Err?
                        && ParsePairs(pieces).error == ParsePair(pieces[i]).error
                        && forall j :: 0 <= j < i ==> ParsePair(pieces[j]).Ok?
    decreases |pieces|
  {
    var init, last := pieces[..|pieces| - 1], pieces[|pieces| - 1];
    if ParsePairs(init).Err? {
      ParsePairsFirstError(init);
      var i :| 0 <= i < |init| && ParsePair(init[i]).Err? && ParsePairs(init).error == ParsePair(init[i]).error
               && forall j :: 0 <= j < i ==> ParsePair(init[j]).Ok?;
      assert pieces[i] == init[i];
      assert forall j :: 0 <= j < i ==> pieces[j] == init[j];
    } else {
      ParsePairsOk(init);
      assert forall j :: 0 <= j < |init| ==> pieces[j] == init[j];
      assert ParsePair(pieces[|init|]).Err?;
    }
  }

  /** `{k: int(v) for k, v in [b.split(":") for b in benchmarks.split(",")]}`, after the space check. */
  function ParseBenchmarks(text: string): (r: Result<Counts>)
    ensures ' ' in text ==> r == Err(ValueError("benchmarks should be separated with commas"))
    ensures r.Ok? ==> Distinct(Names(r.value))
  {
    if ' ' in text then Err(ValueError("benchmarks should be separated with commas"))
    else
      var pairs :- ParsePairs(Split(text, ','));
      ToDictNames(pairs);
      DedupMembers(Firsts(pairs));
      Ok(ToDict(pairs))
  }

  lemma {:induction false} NamesSnoc(d: Counts, p: (string, int))
    ensures Names(d + [p]) == Names(d) + [p.0]
    decreases |d|
  {
    if d == [] {
      assert Names([p]) == [p.0] + Names([]);
    } else {
      assert (d + [p])[1..] == d[1..] + [p];
      NamesSnoc(d[1..], p);
    }
  }

  lemma NamesLast(d: Counts)
    requires d != []
    ensures Names(d) == Names(d[..|d| - 1]) + [d[|d| - 1].0]
  {
    NamesSnoc(d[..|d| - 1], d[|d| - 1]);
    Snoc(d);
  }

  /** Benchmark names that survive the request syntax: no space, comma or colon. */
  predicate PlainName(k: string) {
    ' ' !in k && ',' !in k && ':' !in k
  }

  /** The `name:count` items of a benchmark dict. */
  function RenderItems(d: Counts): (r: seq<string>)
    ensures |r| == |d|
  {
    seq(|d|, i requires 0 <= i < |d| => d[i].0 + ":" + IntToStr(d[i].1))
  }

  /** The request text of a benchmark dict: its `name:count` items joined with commas. */
  function Render(d: Counts): string {
    Join(",", RenderItems(d))
  }

  /** Parsing the text of a non-empty dict with plain, distinct names gives the dict back. */
  lemma ParseRender(d: Counts)
    requires d != [] && Distinct(Names(d))
    requires forall i :: 0 <= i < |d| ==> PlainName(d[i].0)
    ensures ParseBenchmarks(Render(d)) == Ok(d)
  {
    RenderSplits(d);
    ParseItems(d);
    ToDictDistinct(d);
  }

  /** The rendered text has no space and splits at its commas into the items. */
  lemma RenderSplits(d: Counts)
    requires d != []
    requires forall i :: 0 <= i < |d| ==> PlainName(d[i].0)
    ensures ' ' !in Render(d) && Split(Render(d), ',') == RenderItems(d)
  {
    var pieces := RenderItems(d);
    forall i | 0 <= i < |d|
      ensures ' ' !in pieces[i] && ',' !in pieces[i]
    {
      PiecePair(d[i].0, d[i].1);
    }
    JoinExcludes(",", pieces, ' ');
    SplitAllPlain(pieces, ',');
    SplitJoin(pieces, ',');
  }

  /** Every item parses back to its pair. */
  lemma ParseItems(d: Counts)
    requires forall i :: 0 <= i < |d| ==> PlainName(d[i].0)
    ensures ParsePairs(RenderItems(d)) == Ok(d)
  {
    var pieces := RenderItems(d);
    forall i | 0 <= i < |d|
      ensures ParsePair(pieces[i]) == Ok(d[i])
    {
      PiecePair(d[i].0, d[i].1);
    }
    ParsePairsOk(pieces);
    SeqExt(ParsePairs(pieces).value, d);
  }

  /** One `name:count` item parses back to its pair. */
  lemma PiecePair(k: string, v: int)
    requires PlainName(k)
    ensures ' ' !in k + ":" + IntToStr(v) && ',' !in k + ":" + IntToStr(v)
    ensures ParsePair(k + ":" + IntToStr(v)) == Ok((k, v))
  {
    var t := IntToStr(v);
    IntToStrChars(v);
    assert ':' !in t && ' ' !in t && ',' !in t;
    assert k + ":" + t == k + [':'] + t;
    SplitAround(k, t, ':');
    SplitNoSep(k, ':');
    SplitNoSep(t, ':');
    ParseIntRoundTrip(v);
  }

  lemma {:induction false} SplitAllPlain(parts: seq<string>, sep: char)
    requires forall i :: 0 <= i < |parts| ==> sep !in parts[i]
    ensures SplitAll(parts, sep) == parts
    decreases |parts|
  {
    if parts != [] {
      SplitNoSep(parts[0], sep);
      SplitAllPlain(parts[1..], sep);
    }
  }

  /** A character in neither the separator nor any part is not in the joined text. */
  lemma {:induction false} JoinExcludes(sep: string, parts: seq<string>, c: char)
    requires c !in sep && forall i :: 0 <= i < |parts| ==> c !in parts[i]
    ensures c !in Join(sep, parts)
    decreases |parts|
  {
    if |parts| > 1 {
      JoinExcludes(sep, parts[1..], c);
    }
  }

  lemma PutNew(d: Counts, k: string, v: int)
    requires k !in Names(d)
    ensures Put(d, k, v) == d + [(k, v)]
    decreases |d|
  {
    if d != [] {
      PutNew(d[1..], k, v);
    }
  }

  /** A dict built from pairs with distinct keys keeps the pairs as they are. */
  lemma {:induction false} ToDictDistinct(d: Counts)
    requires Distinct(Names(d))
    ensures ToDict(d) == d
    decreases |d|
  {
    if d != [] {
      var init, last := d[..|d| - 1], d[|d| - 1];
      assert d == init + [last];
      NamesSnoc(init, last);
      var names := Names(init);
      assert Names(d) == names + [last.0];
      assert Distinct(names) by {
        forall i, j | 0 <= i < j < |names| ensures names[i] != names[j] {
          assert Names(d)[i] == names[i] && Names(d)[j] == names[j];
        }
      }
      assert last.0 !in names by {
        forall i | 0 <= i < |names| ensures names[i] != last.0 {
          assert Names(d)[i] == names[i] && Names(d)[|names|] == last.0;
        }
      }
      ToDictDistinct(init);
      PutNew(init, last.0, last.1);
    }
  }

  // ---------------------------------------------------------------------------
  // The work list: every benchmark's greedy and sampling commands

  /** What `add_default_args` yields for one benchmark: generation and evaluation arguments, sandbox need. */
  datatype BenchArgs = BenchArgs(genArgs: string, evalArgs: string, requiresSandbox: bool)

  /** `add_default_args` for each benchmark name, with the run's other arguments fixed. */
  type Defaults = string -> BenchArgs

  /** The settings every benchmark's commands share. */
  datatype EvalRun = EvalRun(outputDir: string, addGreedy: bool, startingSeed: int,
                             numChunks: Option<int>, chunkIds: Option<seq<int>>)

  /** Each command paired with the benchmark it belongs to. */
  function WithBenchmark(cmds: seq<string>, benchmark: string): (r: seq<(string, string)>)
    ensures |r| == |cmds|
    ensures forall i :: 0 <= i < |r| ==> r[i] == (cmds[i], benchmark)
  {
    seq(|cmds|, i requires 0 <= i < |cmds| => (cmds[i], benchmark))
  }

  predicate RunsGreedy(run: EvalRun, rsNum: int) {
    run.addGreedy || rsNum == 0
  }

  /** The greedy run's generation arguments: temperature 0 is forced when samples are also taken. */
  function GreedyArgs(genArgs: string, rsNum: int): string {
    if rsNum > 0 then genArgs + " ++inference.temperature=0.0" else genArgs
  }

  function GreedyPart(h: Helpers, run: EvalRun, benchmark: string, rsNum: int, a: BenchArgs): seq<(string, string)> {
    if RunsGreedy(run, rsNum) then
      WithBenchmark(Commands(h, benchmark, run.outputDir, GreedyName, a.evalArgs, GreedyArgs(a.genArgs, rsNum),
                   run.numChunks, run.chunkIds), benchmark)
    else []
  }

  function SamplePart(h: Helpers, run: EvalRun, benchmark: string, a: BenchArgs, rs: int): seq<(string, string)> {
    WithBenchmark(Commands(h, benchmark, run.outputDir, SampleName(rs), a.evalArgs, SampleArgs(rs, a.genArgs),
                 run.numChunks, run.chunkIds), benchmark)
  }

  /** The sampling commands of the seeds `lo, ..., hi - 1`, seed by seed. */
  function SeedsPart(h: Helpers, run: EvalRun, benchmark: string, a: BenchArgs, lo: int, hi: int): seq<(string, string)>
    decreases hi - lo
  {
    if hi <= lo then [] else SeedsPart(h, run, benchmark, a, lo, hi - 1) + SamplePart(h, run, benchmark, a, hi - 1)
  }

  /** The commands of one benchmark: the greedy run if any, then one run per seed. */
  function BenchCmds(h: Helpers, run: EvalRun, benchmark: string, rsNum: int, a: BenchArgs): seq<(string, string)> {
    GreedyPart(h, run, benchmark, rsNum, a)
    + SeedsPart(h, run, benchmark, a, run.startingSeed, run.startingSeed + rsNum)
  }

  /** `eval_cmds`: the commands of all benchmarks, in request order. */
  function WorkList(h: Helpers, run: EvalRun, defaults: Defaults, bench: Counts): seq<(string, string)> {
    if bench == [] then []
    else
      var last := bench[|bench| - 1];
      WorkList(h, run, defaults, bench[..|bench| - 1]) + BenchCmds(h, run, last.0, last.1, defaults(last.0))
  }

  /** `benchmark_requires_sandbox`. */
  function SandboxMap(defaults: Defaults, bench: Counts): map<string, bool> {
    map b | b in Names(bench) :: defaults(b).requiresSandbox
  }

  /** The number of commands per seed: one per chunk. */
  function Slots(run: EvalRun): nat {
    if Unchunked(run.numChunks, run.chunkIds) then 1 else |run.chunkIds.value|
  }

  lemma {:induction false} SeedsPartLength(h: Helpers, run: EvalRun, benchmark: string, a: BenchArgs, lo: int, hi: int)
    requires lo <= hi
    ensures |SeedsPart(h, run, benchmark, a, lo, hi)| == (hi - lo) * Slots(run)
    decreases hi - lo
  {
    if lo < hi {
      var prev, last := SeedsPart(h, run, benchmark, a, lo, hi - 1), SamplePart(h, run, benchmark, a, hi - 1);
      SeedsPartLength(h, run, benchmark, a, lo, hi - 1);
      SamplePartLength(h, run, benchmark, a, hi - 1);
      LengthOfSum(prev, last, lo, hi, Slots(run));
    }
  }

  lemma SamplePartLength(h: Helpers, run: EvalRun, benchmark: string, a: BenchArgs, rs: int)
    ensures |SamplePart(h, run, benchmark, a, rs)| == Slots(run)
  {
    CommandsShape(h, benchmark, run.outputDir, SampleName(rs), a.evalArgs, SampleArgs(rs, a.genArgs),
                  run.numChunks, run.chunkIds);
  }

  lemma LengthOfSum<T>(prev: seq<T>, last: seq<T>, lo: int, hi: int, n: int)
    requires |prev| == (hi - 1 - lo) * n && |last| == n
    ensures |prev + last| == (hi - lo) * n
  {
    assert (hi - 1 - lo) * n + n == (hi - lo) * n;
  }

  /**
    A benchmark with `rs_num` samples contributes one command per chunk for the greedy run when
    `add_greedy` is set or no samples are asked for, and one per chunk for each sample seed.
   */
  lemma BenchCmdsCount(h: Helpers, run: EvalRun, benchmark: string, rsNum: int, a: BenchArgs)
    ensures |BenchCmds(h, run, benchmark, rsNum, a)|
         == (if RunsGreedy(run, rsNum) then Slots(run) else 0) + (if rsNum > 0 then rsNum * Slots(run) else 0)
  {
    CommandsShape(h, benchmark, run.outputDir, GreedyName, a.evalArgs, GreedyArgs(a.genArgs, rsNum),
                  run.numChunks, run.chunkIds);
    if rsNum > 0 {
      SeedsPartLength(h, run, benchmark, a, run.startingSeed, run.startingSeed + rsNum);
    }
  }

  /** Every command of the work list belongs to a requested benchmark. */
  lemma {:induction false} WorkListBenchmarks(h: Helpers, run: EvalRun, defaults: Defaults, bench: Counts, n: nat)
    requires n < |WorkList(h, run, defaults, bench)|
    ensures WorkList(h, run, defaults, bench)[n].1 in Names(bench)
    decreases |bench|
  {
    var init, last := bench[..|bench| - 1], bench[|bench| - 1];
    var prev := WorkList(h, run, defaults, init);
    NamesLast(bench);
    if n < |prev| {
      WorkListBenchmarks(h, run, defaults, init, n);
    } else {
      BenchCmdsTagged(h, run, last.0, last.1, defaults(last.0), n - |prev|);
    }
  }

  lemma BenchCmdsTagged(h: Helpers, run: EvalRun, benchmark: string, rsNum: int, a: BenchArgs, m: nat)
    requires m < |BenchCmds(h, run, benchmark, rsNum, a)|
    ensures BenchCmds(h, run, benchmark, rsNum, a)[m].1 == benchmark
  {
    var g := GreedyPart(h, run, benchmark, rsNum, a);
    if m >= |g| {
      SeedsPartTagged(h, run, benchmark, a, run.startingSeed, run.startingSeed + rsNum, m - |g|);
    }
  }

  lemma {:induction false} SeedsPartTagged(h: Helpers, run: EvalRun, benchmark: string, a: BenchArgs, lo: int, hi: int, m: nat)
    requires m < |SeedsPart(h, run, benchmark, a, lo, hi)|
    ensures SeedsPart(h, run, benchmark, a, lo, hi)[m].1 == benchmark
    decreases hi - lo
  {
    var prev := SeedsPart(h, run, benchmark, a, lo, hi - 1);
    if m < |prev| {
      SeedsPartTagged(h, run, benchmark, a, lo, hi - 1, m);
    }
  }

  /** `eval_cmds.append((cmd, benchmark))` for each command of one run. */
  method Extend(evalCmds: seq<(string, string)>, cmds: seq<string>, benchmark: string) returns (r: seq<(string, string)>)
    ensures r == evalCmds + WithBenchmark(cmds, benchmark)
  {
    r := evalCmds;
    for k := 0 to |cmds|
      invariant r == evalCmds + WithBenchmark(cmds[..k], benchmark)
    {
      assert WithBenchmark(cmds[..k + 1], benchmark) == WithBenchmark(cmds[..k], benchmark) + [(cmds[k], benchmark)];
      r := r + [(cmds[k], benchmark)];
    }
    assert cmds[..|cmds|] == cmds;
  }

  /** One benchmark's turn of the loop: its greedy run, if any, then its sampling runs seed by seed. */
  method AddBenchmark(h: Helpers, run: EvalRun, benchmark: string, rsNum: int, a: BenchArgs,
                      evalCmds: seq<(string, string)>) returns (r: seq<(string, string)>)
    ensures r == evalCmds + BenchCmds(h, run, benchmark, rsNum, a)
  {
    r := evalCmds;
    if run.addGreedy || rsNum == 0 {
      var greedy := GreedyCmds(h, benchmark, run.outputDir, GreedyName, a.evalArgs, GreedyArgs(a.genArgs, rsNum),
                               run.numChunks, run.chunkIds);
      r := Extend(r, greedy, benchmark);
    } else {
      AppendEmpty(r);
    }
    r := AddSamples(h, run, benchmark, a, run.startingSeed, run.startingSeed + rsNum, r);
    Assoc(evalCmds, GreedyPart(h, run, benchmark, rsNum, a),
          SeedsPart(h, run, benchmark, a, run.startingSeed, run.startingSeed + rsNum));
  }

  /** The sampling loop of one benchmark: the runs of the seeds `lo, ..., hi - 1`, seed by seed. */
  method AddSamples(h: Helpers, run: EvalRun, benchmark: string, a: BenchArgs, lo: int, hi: int,
                    evalCmds: seq<(string, string)>) returns (r: seq<(string, string)>)
    ensures r == evalCmds + SeedsPart(h, run, benchmark, a, lo, hi)
  {
    r := evalCmds;
    var rs := lo;
    AppendEmpty(evalCmds);
    while rs < hi
      invariant lo <= rs && (rs <= hi || rs == lo)
      invariant r == evalCmds + SeedsPart(h, run, benchmark, a, lo, rs)
      decreases hi - rs
    {
      var sampled := SamplingCmds(h, benchmark, run.outputDir, rs, a.evalArgs, a.genArgs, run.numChunks, run.chunkIds);
      r := Extend(r, sampled, benchmark);
      Assoc(evalCmds, SeedsPart(h, run, benchmark, a, lo, rs), SamplePart(h, run, benchmark, a, rs));
      rs := rs + 1;
    }
  }

  /** The loop over the requested benchmarks that fills `eval_cmds` and `benchmark_requires_sandbox`. */
  method BuildWorkList(h: Helpers, run: EvalRun, defaults: Defaults, bench: Counts)
    returns (evalCmds: seq<(string, string)>, requiresSandbox: map<string, bool>)
    ensures evalCmds == WorkList(h, run, defaults, bench)
    ensures requiresSandbox == SandboxMap(defaults, bench)
  {
    evalCmds, requiresSandbox := [], map[];
    for k := 0 to |bench|
      invariant evalCmds == WorkList(h, run, defaults, bench[..k])
      invariant requiresSandbox == SandboxMap(defaults, bench[..k])
    {
      var benchmark, rsNum := bench[k].0, bench[k].1;
      var a := defaults(benchmark);
      requiresSandbox := requiresSandbox[benchmark := a.requiresSandbox];
      evalCmds := AddBenchmark(h, run, benchmark, rsNum, a, evalCmds);
      WorkListStep(h, run, defaults, bench, k);
    }
    FullSlice(bench);
  }

  lemma WorkListStep(h: Helpers, run: EvalRun, defaults: Defaults, bench: Counts, k: nat)
    requires k < |bench|
    ensures WorkList(h, run, defaults, bench[..k + 1])
         == WorkList(h, run, defaults, bench[..k]) + BenchCmds(h, run, bench[k].0, bench[k].1, defaults(bench[k].0))
    ensures SandboxMap(defaults, bench[..k + 1]) == SandboxMap(defaults, bench[..k])[bench[k].0 := defaults(bench[k].0).requiresSandbox]
  {
    assert bench[..k + 1][..k] == bench[..k];
    assert bench[..k + 1] == bench[..k] + [bench[k]];
    NamesSnoc(bench[..k], bench[k]);
  }

  // ---------------------------------------------------------------------------
  // Round-robin batching: `eval_cmds[i::num_jobs]`

  /** `num_jobs`: -1 means one job per command; otherwise the requested count per chunk. */
  function NumJobs(numJobs: int, numCmds: nat, numRuns: nat): int {
    if numJobs == -1 then numCmds else numJobs * numRuns
  }

  /** Python `xs[start::step]` for a positive step. */
  function Stride<T>(xs: seq<T>, start: nat, step: nat): seq<T>
    requires step > 0
    decreases |xs| - start
  {
    if start >= |xs| then [] else [xs[start]] + Stride(xs, start + step, step)
  }

  /** One job's commands and the set of benchmarks they belong to. */
  datatype Batch = Batch(cmds: seq<string>, benchmarks: set<string>)

  function BatchOf(slice: seq<(string, string)>): Batch {
    Batch(seq(|slice|, p requires 0 <= p < |slice| => slice[p].0), set p | 0 <= p < |slice| :: slice[p].1)
  }

  /** `job_batches`: batch `i` holds every `num_jobs`-th command starting at `i`; none when `num_jobs <= 0`. */
  function Batches(xs: seq<(string, string)>, numJobs: int): (r: seq<Batch>)
    ensures |r| == if numJobs > 0 then numJobs else 0
  {
    if numJobs <= 0 then [] else seq(numJobs, i requires 0 <= i < numJobs => BatchOf(Stride(xs, i, numJobs)))
  }

  /** The batching loop. */
  method BuildBatches(xs: seq<(string, string)>, numJobs: int) returns (batches: seq<Batch>)
    ensures batches == Batches(xs, numJobs)
  {
    batches := [];
    if numJobs <= 0 {
      return;
    }
    for i := 0 to numJobs
      invariant |batches| == i
      invariant forall k :: 0 <= k < i ==> batches[k] == BatchOf(Stride(xs, k, numJobs))
    {
      var slice := Stride(xs, i, numJobs);
      var cmds, benchmarks := [], {};
      for k := 0 to |slice|
        invariant cmds == seq(k, p requires 0 <= p < k => slice[p].0)
        invariant benchmarks == set p | 0 <= p < k :: slice[p].1
      {
        cmds := cmds + [slice[k].0];
        benchmarks := benchmarks + {slice[k].1};
      }
      batches := batches + [Batch(cmds, benchmarks)];
    }
  }

  lemma Euclid(n: int, j: int)
    requires j > 0
    ensures n == (n / j) * j + n % j && 0 <= n % j < j
  {
  }

  /** Multiples of a positive `j` by a nonzero factor are at least `j` away from zero. */
  lemma MulSign(k: int, j: int)
    requires j > 0
    ensures k >= 1 ==> k * j >= j
    ensures k >= 2 ==> k * j >= j + j
    ensures k <= -1 ==> k * j <= -j
  {
    assert k * j - j == (k - 1) * j;
    assert k * j - j - j == (k - 2) * j;
    assert k * j + j == (k + 1) * j;
  }

  /** Division with remainder has one answer. */
  lemma DivModUnique(n: int, j: int, q: int, r: int)
    requires j > 0 && 0 <= r < j && n == q * j + r
    ensures n / j == q && n % j == r
  {
    Euclid(n, j);
    assert (q - n / j) * j == n % j - r;
    MulSign(q - n / j, j);
  }

  lemma DivStep(a: int, j: int)
    requires a >= 0 && j > 0
    ensures a < j ==> a / j == 0
    ensures a >= j ==> a / j == (a - j) / j + 1
  {
    if a < j {
      DivModUnique(a, j, 0, a);
    } else {
      Euclid(a - j, j);
      assert a == ((a - j) / j + 1) * j + (a - j) % j;
      DivModUnique(a, j, (a - j) / j + 1, (a - j) % j);
    }
  }

  lemma DivLower(a: int, j: int, p: int)
    requires j > 0 && a >= p * j
    ensures a / j >= p
  {
    Euclid(a, j);
    assert (p - a / j) * j == p * j - (a / j) * j;
    MulSign(p - a / j, j);
  }

  lemma DivNear(a: int, b: int, j: int)
    requires j > 0 && b <= a < b + j
    ensures b / j <= a / j <= b / j + 1
  {
    Euclid(a, j);
    Euclid(b, j);
    assert (a / j - b / j) * j == (a - a % j) - (b - b % j);
    MulSign(a / j - b / j, j);
  }

  /** Commands `i, i + J, i + 2J, ...`: how many there are. */
  lemma {:induction false} StrideLength<T>(xs: seq<T>, i: nat, j: nat)
    requires j > 0
    ensures |Stride(xs, i, j)| == if i < |xs| then (|xs| - 1 - i) / j + 1 else 0
    decreases |xs| - i
  {
    if i < |xs| {
      StrideLength(xs, i + j, j);
      DivStep(|xs| - 1 - i, j);
    }
  }

  /** Position `p` of slice `i` is command `i + p * J`. */
  lemma {:induction false} StrideAt<T>(xs: seq<T>, i: nat, j: nat, p: nat)
    requires j > 0 && p < |Stride(xs, i, j)|
    ensures i + p * j < |xs| && Stride(xs, i, j)[p] == xs[i + p * j]
    decreases p
  {
    if p > 0 {
      StrideAt(xs, i + j, j, p - 1);
      assert (i + j) + (p - 1) * j == i + p * j;
    }
  }

  /**
    Round-robin dealing, one way: item `p` of batch `i < J` is the command at position `i + p * J`,
    whose remainder by `J` is `i` and quotient `p`; so a batch holds only commands of its residue,
    in their original order.
   */
  lemma StrideSlot<T>(xs: seq<T>, j: nat, i: nat, p: nat)
    requires j > 0 && i < j && p < |Stride(xs, i, j)|
    ensures var n := i + p * j; n < |xs| && n % j == i && n / j == p && Stride(xs, i, j)[p] == xs[n]
  {
    StrideAt(xs, i, j, p);
    DivModUnique(i + p * j, j, p, i);
  }

  /** Round-robin dealing, the other way: command `n` is item `n / J` of batch `n % J`. */
  lemma StrideCovers<T>(xs: seq<T>, j: nat, n: nat)
    requires j > 0 && n < |xs|
    ensures n / j < |Stride(xs, n % j, j)| && Stride(xs, n % j, j)[n / j] == xs[n]
  {
    var i, p := n % j, n / j;
    Euclid(n, j);
    StrideLength(xs, i, j);
    DivLower(|xs| - 1 - i, j, p);
    StrideAt(xs, i, j, p);
  }

  /** Batch sizes differ by at most one, larger batches first. */
  lemma StrideBalanced<T>(xs: seq<T>, j: nat, i1: nat, i2: nat)
    requires 0 < j && i1 <= i2 < j
    ensures |Stride(xs, i2, j)| <= |Stride(xs, i1, j)| <= |Stride(xs, i2, j)| + 1
  {
    StrideLength(xs, i1, j);
    StrideLength(xs, i2, j);
    var n := |xs|;
    if i2 < n {
      DivNear(n - 1 - i1, n - 1 - i2, j);
    } else if i1 < n {
      DivStep(n - 1 - i1, j);
    }
  }

  /** With more jobs than commands, the jobs past the last command are empty. */
  lemma StrideEmpty<T>(xs: seq<T>, j: nat, i: nat)
    requires j > 0 && |xs| <= i
    ensures Stride(xs, i, j) == []
  {
  }

  /** With one job per command (`num_jobs == -1`), job `i` runs exactly command `i`. */
  lemma StrideSingle<T>(xs: seq<T>, i: nat)
    requires i < |xs|
    ensures Stride(xs, i, |xs|) == [xs[i]]
  {
    assert Stride(xs, i + |xs|, |xs|) == [];
  }

  // ---------------------------------------------------------------------------
  // Jobs

  /** One launched job: its name, commands, benchmarks and whether it runs beside a sandbox. */
  datatype EvalJob = EvalJob(name: string, cmds: seq<string>, benchmarks: set<string>, sandbox: bool)

  /** `f'{expname}-{idx}'`. */
  function JobName(expname: string, idx: nat): string {
    expname + "-" + IntToStr(idx)
  }

  lemma JobNamesDistinct(expname: string, i: nat, k: nat)
    requires i != k
    ensures JobName(expname, i) != JobName(expname, k)
  {
    var p := expname + "-";
    if JobName(expname, i) == JobName(expname, k) {
      assert IntToStr(i) == JobName(expname, i)[|p|..];
      assert IntToStr(k) == JobName(expname, k)[|p|..];
      IntToStrInjective(i, k);
    }
  }

  /** `with_sandbox or any(benchmark_requires_sandbox.get(b, False) for b in benchmarks)`. */
  predicate NeedsSandbox(withSandbox: bool, requiresSandbox: map<string, bool>, benchmarks: set<string>) {
    withSandbox || exists b :: b in benchmarks && b in requiresSandbox && requiresSandbox[b]
  }

  function Jobs(expname: string, batches: seq<Batch>, withSandbox: bool, requiresSandbox: map<string, bool>): (r: seq<EvalJob>)
    ensures |r| == |batches|
  {
    seq(|batches|, i requires 0 <= i < |batches| =>
      EvalJob(JobName(expname, i), batches[i].cmds, batches[i].benchmarks,
              NeedsSandbox(withSandbox, requiresSandbox, batches[i].benchmarks)))
  }

  /** The launch loop: one job per batch, numbered in batch order. */
  method LaunchJobs(expname: string, batches: seq<Batch>, withSandbox: bool, requiresSandbox: map<string, bool>)
    returns (jobs: seq<EvalJob>)
    ensures jobs == Jobs(expname, batches, withSandbox, requiresSandbox)
  {
    jobs := [];
    for idx := 0 to |batches|
      invariant jobs == Jobs(expname, batches[..idx], withSandbox, requiresSandbox)
    {
      var needsSandbox := withSandbox || exists b :: b in batches[idx].benchmarks && b in requiresSandbox && requiresSandbox[b];
      jobs := jobs + [EvalJob(JobName(expname, idx), batches[idx].cmds, batches[idx].benchmarks, needsSandbox)];
    }
    assert batches[..|batches|] == batches;
  }

  lemma BatchAt(xs: seq<(string, string)>, j: nat, i: nat)
    requires 0 < j && i < j
    ensures Batches(xs, j)[i].benchmarks == set p | 0 <= p < |Stride(xs, i, j)| :: Stride(xs, i, j)[p].1
    ensures Batches(xs, j)[i].cmds == seq(|Stride(xs, i, j)|, p requires 0 <= p < |Stride(xs, i, j)| => Stride(xs, i, j)[p].0)
  {
  }

  /** Every benchmark of batch `i` is that of a command at a position with remainder `i`. */
  lemma BatchFrom(xs: seq<(string, string)>, j: nat, i: nat, b: string)
    requires 0 < j && i < j && b in Batches(xs, j)[i].benchmarks
    ensures exists n :: 0 <= n < |xs| && n % j == i && xs[n].1 == b
  {
    var slice := Stride(xs, i, j);
    BatchAt(xs, j, i);
    var p :| 0 <= p < |slice| && slice[p].1 == b;
    StrideSlot(xs, j, i, p);
    var n := i + p * j;
    assert 0 <= n < |xs| && n % j == i && xs[n].1 == b;
  }

  /** The command at position `n` puts its benchmark into batch `n % J`. */
  lemma BatchHas(xs: seq<(string, string)>, j: nat, n: nat)
    requires 0 < j && n < |xs|
    ensures n % j < j && xs[n].1 in Batches(xs, j)[n % j].benchmarks
  {
    var i := n % j;
    var slice := Stride(xs, i, j);
    BatchAt(xs, j, i);
    StrideCovers(xs, j, n);
    var p := n / j;
    assert 0 <= p < |slice| && slice[p].1 == xs[n].1;
  }

  /**
    A job asks for a sandbox exactly when the run does, or when one of the commands dealt to it
    belongs to a benchmark that requires one.
   */
  lemma BatchSandbox(xs: seq<(string, string)>, j: nat, i: nat, withSandbox: bool, requiresSandbox: map<string, bool>)
    requires 0 < j && i < j
    ensures NeedsSandbox(withSandbox, requiresSandbox, Batches(xs, j)[i].benchmarks)
        <==> withSandbox || exists n :: 0 <= n < |xs| && n % j == i && xs[n].1 in requiresSandbox && requiresSandbox[xs[n].1]
  {
    var bs := Batches(xs, j)[i].benchmarks;
    if b :| b in bs && b in requiresSandbox && requiresSandbox[b] {
      BatchFrom(xs, j, i, b);
    }
    if n :| 0 <= n < |xs| && n % j == i && xs[n].1 in requiresSandbox && requiresSandbox[xs[n].1] {
      BatchHas(xs, j, n);
    }
  }

  // ---------------------------------------------------------------------------
  // The whole planning step

  /** The arguments of `eval` this model uses. */
  datatype EvalRequest = EvalRequest(
    benchmarks: string, outputDir: string, expname: string, numChunks: Option<int>, chunkIds: IdsArg,
    addGreedy: bool, startingSeed: int, numJobs: int, withSandbox: bool)

  /** The jobs `eval` launches for a request, or the error it stops with. */
  function EvalPlan(h: Helpers, req: EvalRequest, defaults: Defaults): Result<seq<EvalJob>> {
    var chunks :- ResolveChunks(h, req.numChunks, req.chunkIds);
    var bench :- ParseBenchmarks(req.benchmarks);
    var run := EvalRun(req.outputDir, req.addGreedy, req.startingSeed, req.numChunks, chunks);
    var cmds := WorkList(h, run, defaults, bench);
    var j := NumJobs(req.numJobs, |cmds|, NumRuns(chunks));
    Ok(Jobs(req.expname, Batches(cmds, j), req.withSandbox, SandboxMap(defaults, bench)))
  }

  /** The planning part of `eval`, step by step. */
  method PlanEval(h: Helpers, req: EvalRequest, defaults: Defaults) returns (r: Result<seq<EvalJob>>)
    ensures r == EvalPlan(h, req, defaults)
  {
    var chunks :- ResolveChunks(h, req.numChunks, req.chunkIds);
    var bench :- ParseBenchmarks(req.benchmarks);
    var run := EvalRun(req.outputDir, req.addGreedy, req.startingSeed, req.numChunks, chunks);
    var evalCmds, requiresSandbox := BuildWorkList(h, run, defaults, bench);
    var numJobs := NumJobs(req.numJobs, |evalCmds|, NumRuns(chunks));
    var batches := BuildBatches(evalCmds, numJobs);
    var jobs := LaunchJobs(req.expname, batches, req.withSandbox, requiresSandbox);
    return Ok(jobs);
  }
}
