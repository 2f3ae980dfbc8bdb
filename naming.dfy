/**
  Output file names and `.done` completion markers of generation work units
  (`get_chunked_rs_filename` and `get_expected_done_files` in nemo_skills/pipeline/generate.py).
 */
module Naming {
  import opened Wrappers
  import opened PyStr
  import opened NemoUtils

  type Seed = Option<int>
  type Chunk = Option<int>

  /** One unit of work: a sampling seed (None: the greedy run) and a dataset chunk (None: unchunked). */
  datatype WorkUnit = WorkUnit(seed: Seed, chunk: Chunk)

  /** `{prefix}.jsonl`, or `{prefix}-rs{seed}.jsonl` when a seed is given. */
  function BaseName(prefix: string, seed: Seed): string {
    match seed
    case None => prefix + ".jsonl"
    case Some(s) => prefix + "-rs" + IntToStr(s) + ".jsonl"
  }

  /** `get_chunked_rs_filename`: the base name, chunked when a chunk id is given, under `dir`. */
  function RsFilename(h: Helpers, dir: string, seed: Seed, chunk: Chunk, prefix: string): string {
    var base := BaseName(prefix, seed);
    PathJoin(dir, if chunk.Some? then h.chunkedFilename(chunk.value, base) else base)
  }

  /** The completion marker of a unit: its output file with `.done` appended. */
  function DoneFile(h: Helpers, dir: string, prefix: string, u: WorkUnit): string {
    RsFilename(h, dir, u.seed, u.chunk, prefix) + ".done"
  }

  /**
    Under an output directory not ending in `/`, and for a relative prefix: the greedy run writes
    `{dir}/{prefix}.jsonl`, seed `s` writes `{dir}/{prefix}-rs{s}.jsonl`, and a chunk id renames
    only the file, never the directory.
   */
  lemma RsFilenameForms(h: Helpers, dir: string, prefix: string, s: int, c: int)
    requires ChunkNamingAssumed(h) && !IsAbsolute(prefix)
    requires dir != [] && dir[|dir| - 1] != '/'
    ensures RsFilename(h, dir, None, None, prefix) == dir + "/" + prefix + ".jsonl"
    ensures RsFilename(h, dir, Some(s), None, prefix) == dir + "/" + prefix + "-rs" + IntToStr(s) + ".jsonl"
    ensures StartsWith(RsFilename(h, dir, Some(s), Some(c), prefix), dir + "/")
    ensures StartsWith(RsFilename(h, dir, None, Some(c), prefix), dir + "/")
  {
    var b0, b1 := BaseName(prefix, None), BaseName(prefix, Some(s));
    BaseNameIsAbsolute(prefix, None);
    BaseNameIsAbsolute(prefix, Some(s));
    assert !IsAbsolute(h.chunkedFilename(c, b0)) && !IsAbsolute(h.chunkedFilename(c, b1));
    assert (dir + "/" + h.chunkedFilename(c, b0))[..|dir + "/"|] == dir + "/";
    assert (dir + "/" + h.chunkedFilename(c, b1))[..|dir + "/"|] == dir + "/";
  }

  lemma BaseNameIsAbsolute(prefix: string, seed: Seed)
    ensures IsAbsolute(BaseName(prefix, seed)) == IsAbsolute(prefix)
  {
  }

  lemma BaseNameInjective(prefix: string, s1: Seed, s2: Seed)
    requires BaseName(prefix, s1) == BaseName(prefix, s2)
    ensures s1 == s2
  {
    var b1, b2 := BaseName(prefix, s1), BaseName(prefix, s2);
    var k := |prefix|;
    if s1.Some? && s2.Some? {
      var t1, t2 := IntToStr(s1.value), IntToStr(s2.value);
      assert b1 == prefix + "-rs" + t1 + ".jsonl";
      assert b1[k + 3..|b1| - 6] == t1;
      assert b2[k + 3..|b2| - 6] == t2;
      IntToStrInjective(s1.value, s2.value);
    }
  }

  /**
    For one output directory and prefix, different units of the same chunking mode have different
    output files (so different markers): the naming is a bijection onto its image.
   */
  lemma RsFilenameInjective(h: Helpers, dir: string, prefix: string, u1: WorkUnit, u2: WorkUnit)
    requires ChunkNamingAssumed(h)
    requires u1.chunk.Some? == u2.chunk.Some?
    requires RsFilename(h, dir, u1.seed, u1.chunk, prefix) == RsFilename(h, dir, u2.seed, u2.chunk, prefix)
    ensures u1 == u2
  {
    var b1, b2 := BaseName(prefix, u1.seed), BaseName(prefix, u2.seed);
    BaseNameIsAbsolute(prefix, u1.seed);
    BaseNameIsAbsolute(prefix, u2.seed);
    if u1.chunk.Some? {
      var c1, c2 := h.chunkedFilename(u1.chunk.value, b1), h.chunkedFilename(u2.chunk.value, b2);
      ChunkedKeepsAbsolute(h, u1.chunk.value, b1);
      ChunkedKeepsAbsolute(h, u2.chunk.value, b2);
      PathJoinInjective(dir, c1, c2);
      assert u1.chunk.value == u2.chunk.value && b1 == b2;
    } else {
      PathJoinInjective(dir, b1, b2);
    }
    BaseNameInjective(prefix, u1.seed, u2.seed);
  }

  lemma ChunkedKeepsAbsolute(h: Helpers, c: int, name: string)
    requires ChunkNamingAssumed(h)
    ensures IsAbsolute(h.chunkedFilename(c, name)) == IsAbsolute(name)
  {
  }

  /** Markers inherit the injectivity of the output names. */
  lemma DoneFileInjective(h: Helpers, dir: string, prefix: string, u1: WorkUnit, u2: WorkUnit)
    requires ChunkNamingAssumed(h)
    requires u1.chunk.Some? == u2.chunk.Some?
    requires DoneFile(h, dir, prefix, u1) == DoneFile(h, dir, prefix, u2)
    ensures u1 == u2
  {
    var f1, f2 := RsFilename(h, dir, u1.seed, u1.chunk, prefix), RsFilename(h, dir, u2.seed, u2.chunk, prefix);
    assert |f1| == |f2|;
    assert f1 == (f1 + ".done")[..|f1|];
    assert f2 == (f2 + ".done")[..|f2|];
    RsFilenameInjective(h, dir, prefix, u1, u2);
  }

  // ---------------------------------------------------------------------------
  // The work matrix

  /** The units of one seed, in chunk order. */
  function Row(seed: Seed, chunks: seq<Chunk>): seq<WorkUnit> {
    if chunks == [] then [] else Row(seed, chunks[..|chunks| - 1]) + [WorkUnit(seed, chunks[|chunks| - 1])]
  }

  /** The units of `seeds × chunks`, seed-major, as the nested loops visit them. */
  function Cross(seeds: seq<Seed>, chunks: seq<Chunk>): seq<WorkUnit> {
    if seeds == [] then [] else Cross(seeds[..|seeds| - 1], chunks) + Row(seeds[|seeds| - 1], chunks)
  }

  /** The keys of a dict filled in the order of `xs`: first occurrences only, in order. */
  function Dedup<T(==)>(xs: seq<T>): seq<T> {
    if xs == [] then []
    else if xs[|xs| - 1] in xs[..|xs| - 1] then Dedup(xs[..|xs| - 1])
    else Dedup(xs[..|xs| - 1]) + [xs[|xs| - 1]]
  }

  predicate Distinct<T(==)>(xs: seq<T>) {
    forall i, j :: 0 <= i < j < |xs| ==> xs[i] != xs[j]
  }

  lemma {:induction false} RowMembers(seed: Seed, chunks: seq<Chunk>, u: WorkUnit)
    ensures u in Row(seed, chunks) <==> u.seed == seed && u.chunk in chunks
    decreases |chunks|
  {
    if chunks != [] {
      RowMembers(seed, chunks[..|chunks| - 1], u);
      assert chunks == chunks[..|chunks| - 1] + [chunks[|chunks| - 1]];
    }
  }

  lemma {:induction false} CrossMembers(seeds: seq<Seed>, chunks: seq<Chunk>, u: WorkUnit)
    ensures u in Cross(seeds, chunks) <==> u.seed in seeds && u.chunk in chunks
    decreases |seeds|
  {
    if seeds != [] {
      CrossMembers(seeds[..|seeds| - 1], chunks, u);
      RowMembers(seeds[|seeds| - 1], chunks, u);
      assert seeds == seeds[..|seeds| - 1] + [seeds[|seeds| - 1]];
    }
  }

  lemma {:induction false} DedupMembers<T>(xs: seq<T>)
    ensures forall x :: x in Dedup(xs) <==> x in xs
    ensures Distinct(Dedup(xs))
    decreases |xs|
  {
    if xs != [] {
      DedupMembers(xs[..|xs| - 1]);
      assert xs == xs[..|xs| - 1] + [xs[|xs| - 1]];
    }
  }

  /** The keys of the expected-marker map are exactly `seeds × chunks`, each once. */
  lemma ExpectedKeys(seeds: seq<Seed>, chunks: seq<Chunk>)
    ensures forall u :: u in Dedup(Cross(seeds, chunks)) <==> u.seed in seeds && u.chunk in chunks
    ensures Distinct(Dedup(Cross(seeds, chunks)))
  {
    DedupMembers(Cross(seeds, chunks));
    forall u ensures u in Cross(seeds, chunks) <==> u.seed in seeds && u.chunk in chunks {
      CrossMembers(seeds, chunks, u);
    }
  }

  lemma DedupSnoc<T>(xs: seq<T>, x: T)
    ensures Dedup(xs + [x]) == if x in Dedup(xs) then Dedup(xs) else Dedup(xs) + [x]
  {
    assert (xs + [x])[..|xs|] == xs;
    DedupMembers(xs);
  }

  lemma MatrixSnoc(seeds: seq<Seed>, chunks: seq<Chunk>, i: nat, j: nat)
    requires i < |seeds| && j < |chunks|
    ensures Cross(seeds[..i], chunks) + Row(seeds[i], chunks[..j + 1])
         == Cross(seeds[..i], chunks) + Row(seeds[i], chunks[..j]) + [WorkUnit(seeds[i], chunks[j])]
  {
    assert chunks[..j + 1][..j] == chunks[..j];
  }

  lemma MatrixNextSeed(seeds: seq<Seed>, chunks: seq<Chunk>, i: nat)
    requires i < |seeds|
    ensures Cross(seeds[..i + 1], chunks) == Cross(seeds[..i], chunks) + Row(seeds[i], chunks[..|chunks|])
  {
    assert seeds[..i + 1][..i] == seeds[..i];
    assert chunks[..|chunks|] == chunks;
  }

  /**
    `get_expected_done_files`: the map from each `(seed, chunk)` to its marker, filled seed by seed
    and chunk by chunk; `keys` is the map's key order.
   */
  method ExpectedDoneFiles(h: Helpers, dir: string, seeds: seq<Seed>, chunks: seq<Chunk>, prefix: string)
    returns (keys: seq<WorkUnit>, files: map<WorkUnit, string>)
    ensures keys == Dedup(Cross(seeds, chunks))
    ensures forall u :: u in files <==> u in keys
    ensures forall u :: u in files ==> files[u] == DoneFile(h, dir, prefix, u)
  {
    keys, files := [], map[];
    for i := 0 to |seeds|
      invariant keys == Dedup(Cross(seeds[..i], chunks))
      invariant forall u :: u in files <==> u in keys
      invariant forall u :: u in files ==> files[u] == DoneFile(h, dir, prefix, u)
    {
      assert Cross(seeds[..i], chunks) + Row(seeds[i], chunks[..0]) == Cross(seeds[..i], chunks);
      for j := 0 to |chunks|
        invariant keys == Dedup(Cross(seeds[..i], chunks) + Row(seeds[i], chunks[..j]))
        invariant forall u :: u in files <==> u in keys
        invariant forall u :: u in files ==> files[u] == DoneFile(h, dir, prefix, u)
      {
        var u := WorkUnit(seeds[i], chunks[j]);
        var outputFile := RsFilename(h, dir, u.seed, u.chunk, prefix);
        MatrixSnoc(seeds, chunks, i, j);
        DedupSnoc(Cross(seeds[..i], chunks) + Row(seeds[i], chunks[..j]), u);
        if u !in files {
          keys := keys + [u];
        }
        files := files[u := outputFile + ".done"];
      }
      MatrixNextSeed(seeds, chunks, i);
    }
    assert seeds[..|seeds|] == seeds;
  }
}
