/**
  `get_remaining_jobs` (nemo_skills/pipeline/generate.py): which `(seed, chunk)` units still need a
  run. Every expected unit's marker is tested on the host that holds the output directory; the
  probe's output is parsed back into the missing units, grouped by seed, and every other expected
  unit is done.

  The host file system is the set `existing` of host paths that exist, and the probe shell is
  `Probe.RunGroup`; the cluster configuration contributes the host's name for the output
  directory (`statusDir`) and whether commands go through an SSH tunnel (`slurm`).
 */
module Remaining {
  import opened Wrappers
  import opened PyStr
  import opened NemoUtils
  import opened Naming
  import opened Probe
  import opened Jobs
  import opened Seqs

  /** The largest number of marker tests sent in one probe invocation. */
  const RequestSize: nat := 16

  // ---------------------------------------------------------------------------
  // Where a marker lives on the host

  /** The host path of a marker as the code computes it: every occurrence of the output directory is replaced. */
  function HostPathAsWritten(dir: string, status: string, marker: string): string {
    ReplaceAll(marker, dir, status)
  }

  /** The host path of a marker: its leading output directory is replaced by the host's name for it. */
  function HostPath(dir: string, status: string, marker: string): string {
    if StartsWith(marker, dir) then status + marker[|dir|..] else marker
  }

  /** With a relative output prefix every marker sits under the output directory. */
  lemma MarkerUnderDir(h: Helpers, dir: string, prefix: string, u: WorkUnit)
    requires ChunkNamingAssumed(h) && !IsAbsolute(prefix)
    ensures StartsWith(DoneFile(h, dir, prefix, u), dir)
  {
    BaseNameIsAbsolute(prefix, u.seed);
    if u.chunk.Some? {
      ChunkedKeepsAbsolute(h, u.chunk.value, BaseName(prefix, u.seed));
    }
    var f := RsFilename(h, dir, u.seed, u.chunk, prefix);
    assert StartsWith(f, dir);
    assert (f + ".done")[..|dir|] == f[..|dir|];
  }

  /** A marker's host path is the host directory followed by the marker's path inside the output directory. */
  lemma HostPathOfMarker(h: Helpers, dir: string, status: string, prefix: string, u: WorkUnit)
    requires ChunkNamingAssumed(h) && !IsAbsolute(prefix)
    ensures var m := DoneFile(h, dir, prefix, u);
      StartsWith(m, dir) && HostPath(dir, status, m) == status + m[|dir|..] && m == dir + m[|dir|..]
  {
    MarkerUnderDir(h, dir, prefix, u);
  }

  /** Different units of one chunking mode are tested at different host paths. */
  lemma HostPathInjective(h: Helpers, dir: string, status: string, prefix: string, u1: WorkUnit, u2: WorkUnit)
    requires ChunkNamingAssumed(h) && !IsAbsolute(prefix)
    requires u1.chunk.Some? == u2.chunk.Some?
    requires HostPath(dir, status, DoneFile(h, dir, prefix, u1)) == HostPath(dir, status, DoneFile(h, dir, prefix, u2))
    ensures u1 == u2
  {
    var m1, m2 := DoneFile(h, dir, prefix, u1), DoneFile(h, dir, prefix, u2);
    HostPathOfMarker(h, dir, status, prefix, u1);
    HostPathOfMarker(h, dir, status, prefix, u2);
    assert m1[|dir|..] == (status + m1[|dir|..])[|status|..];
    assert m2[|dir|..] == (status + m2[|dir|..])[|status|..];
    DoneFileInjective(h, dir, prefix, u1, u2);
  }

  lemma {:induction false} ReplaceAllAbsent(s: string, pattern: string, repl: string)
    requires pattern != [] && pattern[0] !in s
    ensures ReplaceAll(s, pattern, repl) == s
    decreases |s|
  {
    if s != [] {
      assert !StartsWith(s, pattern);
      ReplaceAllAbsent(s[1..], pattern, repl);
    }
  }

  lemma ReplaceAtFront(pattern: string, rest: string, repl: string)
    requires pattern != []
    ensures ReplaceAll(pattern + rest, pattern, repl) == repl + ReplaceAll(rest, pattern, repl)
  {
    assert (pattern + rest)[..|pattern|] == pattern;
    assert (pattern + rest)[|pattern|..] == rest;
  }

  /**
    The replacement also rewrites the output directory where it reappears inside the file name:
    with output directory `/out`, host directory `/host` and the default prefix, the unchunked
    greedy unit's marker `/out/output.jsonl.done` is tested at `/host/hostput.jsonl.done` rather
    than at `/host/output.jsonl.done`, so a marker present on the host is reported missing and the
    finished unit is launched again; the prefix rewrite tests the right path.
   */
  lemma HostPathAsWrittenMisses(h: Helpers, dir: string, status: string, prefix: string)
    requires dir == "/out" && status == "/host" && prefix == "output"
    ensures var u := WorkUnit(None, None);
      var m := DoneFile(h, dir, prefix, u);
      var host := status + "/output.jsonl.done";
      && m == dir + "/output.jsonl.done"
      && HostPath(dir, status, m) == host
      && HostPathAsWritten(dir, status, m) == status + status + "put.jsonl.done"
      && HostPathAsWritten(dir, status, m) != host
      && Unfinished([CheckCmd(HostPathAsWritten(dir, status, m), u)], {host}) == [u]
      && Unfinished([CheckFor(h, dir, status, prefix, u)], {host}) == []
  {
    var rest := "put.jsonl.done";
    var m := DoneFile(h, dir, prefix, WorkUnit(None, None));
    DefaultMarker(h, dir, prefix);
    ReplaceOutTwice(dir, status);
    assert m == dir + "/output.jsonl.done";
    assert StartsWith(m, dir) && m[|dir|..] == "/output.jsonl.done";
    assert (status + status + rest)[6] != (status + "/output.jsonl.done")[6];
  }

  lemma DefaultMarker(h: Helpers, dir: string, prefix: string)
    requires dir == "/out" && prefix == "output"
    ensures DoneFile(h, dir, prefix, WorkUnit(None, None)) == dir + (dir + "put.jsonl.done")
  {
    assert BaseName(prefix, None) == "output.jsonl";
    assert PathJoin(dir, "output.jsonl") == dir + "/" + "output.jsonl";
  }

  lemma ReplaceOutTwice(dir: string, status: string)
    requires dir == "/out" && status == "/host"
    ensures ReplaceAll(dir + (dir + "put.jsonl.done"), dir, status) == status + status + "put.jsonl.done"
  {
    var rest := "put.jsonl.done";
    assert '/' !in rest;
    ReplaceAllAbsent(rest, dir, status);
    ReplaceAtFront(dir, dir + rest, status);
    ReplaceAtFront(dir, rest, status);
  }

  /** The output directory does not occur again in `m` after its first character. */
  predicate OnlyLeading(dir: string, m: string) {
    forall i :: 0 < i < |m| ==> !StartsWith(m[i..], dir)
  }

  lemma {:induction false} ReplaceAllNowhere(s: string, pattern: string, repl: string)
    requires pattern != [] && forall i :: 0 <= i < |s| ==> !StartsWith(s[i..], pattern)
    ensures ReplaceAll(s, pattern, repl) == s
    decreases |s|
  {
    if s != [] {
      assert s[0..] == s;
      forall i | 0 <= i < |s[1..]| ensures !StartsWith(s[1..][i..], pattern) {
        assert s[1..][i..] == s[i + 1..];
      }
      ReplaceAllNowhere(s[1..], pattern, repl);
    }
  }

  lemma {:induction false} ReplaceAllSame(s: string, pattern: string)
    ensures ReplaceAll(s, pattern, pattern) == s
    decreases |s|
  {
    if pattern == [] {
      if s != [] {
        ReplaceAllSame(s[1..], pattern);
        assert [s[0]] + s[1..] == s;
      }
    } else if StartsWith(s, pattern) {
      ReplaceAllSame(s[|pattern|..], pattern);
      assert s == s[..|pattern|] + s[|pattern|..];
    } else if s != [] {
      ReplaceAllSame(s[1..], pattern);
      assert [s[0]] + s[1..] == s;
    }
  }

  /**
    The replacement the code performs and the prefix rewrite give the same host path when the
    output directory occurs in the marker only at its start, and whenever the host's name for the
    directory is the directory itself.
   */
  lemma HostPathAsWrittenAgrees(dir: string, status: string, m: string)
    requires StartsWith(m, dir)
    requires status == dir || (dir != [] && OnlyLeading(dir, m))
    ensures HostPathAsWritten(dir, status, m) == HostPath(dir, status, m)
  {
    var rest := m[|dir|..];
    assert m == dir + rest;
    if status == dir {
      ReplaceAllSame(m, dir);
    } else {
      ReplaceAtFront(dir, rest, status);
      forall i | 0 <= i < |rest| ensures !StartsWith(rest[i..], dir) {
        assert rest[i..] == m[|dir| + i..];
      }
      ReplaceAllNowhere(rest, dir, status);
    }
  }

  // ---------------------------------------------------------------------------
  // Probe commands

  /** The test of one unit: its marker's host path and the unit. */
  function CheckFor(h: Helpers, dir: string, status: string, prefix: string, u: WorkUnit): CheckCmd {
    CheckCmd(HostPath(dir, status, DoneFile(h, dir, prefix, u)), u)
  }

  /** The tests of the expected units, in the key order of the expected-marker map. */
  function Checks(h: Helpers, dir: string, status: string, prefix: string, keys: seq<WorkUnit>): seq<CheckCmd> {
    if keys == [] then []
    else Checks(h, dir, status, prefix, keys[..|keys| - 1]) + [CheckFor(h, dir, status, prefix, keys[|keys| - 1])]
  }

  /** `xs[i : i + k]` for `i` in `range(0, len(xs), k)`: consecutive slices of at most `k` elements. */
  function Groups<T>(xs: seq<T>, k: nat): seq<seq<T>>
    requires k > 0
    decreases |xs|
  {
    if |xs| <= k then (if xs == [] then [] else [xs]) else [xs[..k]] + Groups(xs[k..], k)
  }

  function Flatten<T>(gs: seq<seq<T>>): seq<T> {
    if gs == [] then [] else gs[0] + Flatten(gs[1..])
  }

  /** The groups, read in order, are the whole sequence. */
  lemma {:induction false} GroupsFlatten<T>(xs: seq<T>, k: nat)
    requires k > 0
    ensures Flatten(Groups(xs, k)) == xs
    decreases |xs|
  {
    if |xs| > k {
      GroupsFlatten(xs[k..], k);
      assert xs == xs[..k] + xs[k..];
    } else if xs != [] {
      assert Flatten([xs]) == xs + Flatten([]);
    }
  }

  /** Every group holds between one and `k` elements; only the last may hold fewer than `k`. */
  lemma {:induction false} GroupsSizes<T>(xs: seq<T>, k: nat)
    requires k > 0
    ensures forall j :: 0 <= j < |Groups(xs, k)| ==> 0 < |Groups(xs, k)[j]| <= k
    ensures forall j :: 0 <= j < |Groups(xs, k)| - 1 ==> |Groups(xs, k)[j]| == k
    decreases |xs|
  {
    if |xs| > k {
      GroupsSizes(xs[k..], k);
      var gs := Groups(xs, k);
      assert gs == [xs[..k]] + Groups(xs[k..], k);
      forall j | 0 < j < |gs| ensures gs[j] == Groups(xs[k..], k)[j - 1] {
      }
    }
  }

  lemma GroupsStep<T>(xs: seq<T>, k: nat, i: nat, end: nat)
    requires k > 0 && i < |xs| && end == (if i + k <= |xs| then i + k else |xs|)
    ensures Groups(xs[i..], k) == [xs[i..end]] + Groups(xs[end..], k)
  {
    if |xs[i..]| > k {
      assert xs[i..][..k] == xs[i..end];
      assert xs[i..][k..] == xs[end..];
    } else {
      assert end == |xs| && xs[i..end] == xs[i..];
      assert xs[end..] == [];
      assert Groups(xs[end..], k) == [];
    }
  }

  /** The probe command strings sent for a list of groups, in order. */
  function RenderAll(gs: seq<seq<CheckCmd>>): seq<string> {
    if gs == [] then [] else RenderAll(gs[..|gs| - 1]) + [RenderGroup(gs[|gs| - 1])]
  }

  /** The output kept from one invocation: stripped when it comes back through the tunnel. */
  function GroupOutput(group: seq<CheckCmd>, existing: set<string>, slurm: bool): string {
    if slurm then Strip(RunGroup(group, existing)) else RunGroup(group, existing)
  }

  function Outputs(gs: seq<seq<CheckCmd>>, existing: set<string>, slurm: bool): seq<string> {
    if gs == [] then [] else Outputs(gs[..|gs| - 1], existing, slurm) + [GroupOutput(gs[|gs| - 1], existing, slurm)]
  }

  /** The probe invocations: one per group of 16 tests when there are more than 16 seeds, else one. */
  function ProbeCommands(cmds: seq<CheckCmd>, seedCount: nat): seq<string> {
    if seedCount > RequestSize then RenderAll(Groups(cmds, RequestSize)) else [RenderGroup(cmds)]
  }

  /**
    The grouped probe (more than 16 seeds): the tests go out in consecutive groups of at most 16,
    and the outputs are joined with newlines in group order and stripped.
   */
  method ProbeInGroups(cmds: seq<CheckCmd>, slurm: bool, existing: set<string>)
    returns (output: string, probes: seq<string>)
    ensures probes == RenderAll(Groups(cmds, RequestSize))
    ensures output == Strip(Join("\n", Outputs(Groups(cmds, RequestSize), existing, slurm)))
    ensures Lines(output) == MissingLines(Unfinished(cmds, existing))
  {
    var outs: seq<string> := [];
    probes := [];
    ghost var sent: seq<seq<CheckCmd>> := [];
    var i := 0;
    assert Lines([]) == [];
    while i < |cmds|
      invariant i <= |cmds|
      invariant sent + Groups(cmds[i..], RequestSize) == Groups(cmds, RequestSize)
      invariant probes == RenderAll(sent)
      invariant outs == Outputs(sent, existing, slurm)
      invariant ProbeChars(Join("\n", outs))
      invariant Lines(Join("\n", outs)) == MissingLines(Unfinished(cmds[..i], existing))
      decreases |cmds| - i
    {
      var end := if i + RequestSize <= |cmds| then i + RequestSize else |cmds|;
      var group := cmds[i..end];
      GroupsAdvance(cmds, RequestSize, i, end, sent);
      probes := probes + [RenderGroup(group)];
      var out := RunGroup(group, existing);
      if slurm {
        out := Strip(out);
      }
      assert out == GroupOutput(group, existing, slurm);
      ProbeStep(cmds, i, end, outs, out, existing, slurm);
      SentSnoc(sent, group, existing, slurm);
      outs := outs + [out];
      sent := sent + [group];
      i := end;
    }
    FullSlice(cmds);
    GroupsDone(cmds, RequestSize, sent);
    StripLines(Join("\n", outs));
    output := Strip(Join("\n", outs));
  }

  /** Sending the next group moves it from the groups still to send to those sent. */
  lemma GroupsAdvance<T>(xs: seq<T>, k: nat, i: nat, end: nat, sent: seq<seq<T>>)
    requires k > 0 && i < |xs| && end == (if i + k <= |xs| then i + k else |xs|)
    requires sent + Groups(xs[i..], k) == Groups(xs, k)
    ensures (sent + [xs[i..end]]) + Groups(xs[end..], k) == Groups(xs, k)
  {
    GroupsStep(xs, k, i, end);
    Assoc(sent, [xs[i..end]], Groups(xs[end..], k));
  }

  lemma GroupsDone<T>(xs: seq<T>, k: nat, sent: seq<seq<T>>)
    requires k > 0 && sent + Groups(xs[|xs|..], k) == Groups(xs, k)
    ensures sent == Groups(xs, k)
  {
    assert xs[|xs|..] == [];
    AppendEmpty(sent);
  }

  lemma SentSnoc(sent: seq<seq<CheckCmd>>, group: seq<CheckCmd>, existing: set<string>, slurm: bool)
    ensures RenderAll(sent + [group]) == RenderAll(sent) + [RenderGroup(group)]
    ensures Outputs(sent + [group], existing, slurm) == Outputs(sent, existing, slurm) + [GroupOutput(group, existing, slurm)]
  {
    FrontOfSnoc(sent, group);
  }

  /** One more group's output keeps the joined output's lines equal to those of the tests sent so far. */
  lemma ProbeStep(cmds: seq<CheckCmd>, i: nat, end: nat, outs: seq<string>, out: string,
                  existing: set<string>, slurm: bool)
    requires i <= end <= |cmds| && out == GroupOutput(cmds[i..end], existing, slurm)
    requires ProbeChars(Join("\n", outs))
    requires Lines(Join("\n", outs)) == MissingLines(Unfinished(cmds[..i], existing))
    ensures ProbeChars(Join("\n", outs + [out]))
    ensures Lines(Join("\n", outs + [out])) == MissingLines(Unfinished(cmds[..end], existing))
  {
    var group := cmds[i..end];
    RunGroupLines(group, existing);
    RunGroupChars(group, existing);
    if slurm {
      StripLines(RunGroup(group, existing));
    }
    LinesJoinSnoc(outs, out);
    SlicePrefix(cmds, i, end);
    UnfinishedAppend(cmds[..i], group, existing);
    MissingLinesAppend(Unfinished(cmds[..i], existing), Unfinished(group, existing));
  }

  // ---------------------------------------------------------------------------
  // Parsing the probe output

  /** The missing units of the probe output, grouped by seed in order of appearance. */
  function ParseProbe(output: string): Result<JobMap> {
    var us :- ParseLines(SplitLines(output));
    Ok(GroupBySeed(us))
  }

  /** The parsing loop: `missing_jobs[seed].append(chunk)` for every marked line, in order. */
  method ParseProbeOutput(output: string) returns (r: Result<JobMap>)
    ensures r == ParseProbe(output)
  {
    var lines := SplitLines(output);
    var jobs: JobMap := [];
    ghost var us: seq<WorkUnit> := [];
    for i := 0 to |lines|
      invariant ParseLines(lines[..i]) == Ok(us)
      invariant jobs == GroupBySeed(us)
    {
      assert lines[..i + 1][..i] == lines[..i];
      var parsed := ParseLine(lines[i]);
      if parsed.Err? {
        ParseLinesErr(lines, i + 1);
        return Err(parsed.error);
      }
      if parsed.value.Some? {
        var u := parsed.value.value;
        jobs := AppendAt(jobs, u.seed, u.chunk);
        assert (us + [u])[..|us|] == us;
        us := us + [u];
      }
    }
    assert lines[..|lines|] == lines;
    r := Ok(jobs);
  }

  // ---------------------------------------------------------------------------
  // The result

  /** The expected units: the keys of the expected-marker map. */
  function Expected(seeds: seq<Seed>, chunks: seq<Chunk>): seq<WorkUnit> {
    Dedup(Cross(seeds, chunks))
  }

  /** The units the probe reports missing, grouped by seed. */
  function Found(h: Helpers, dir: string, status: string, prefix: string,
                 seeds: seq<Seed>, chunks: seq<Chunk>, existing: set<string>): JobMap
  {
    GroupBySeed(Unfinished(Checks(h, dir, status, prefix, Expected(seeds, chunks)), existing))
  }

  /** The returned map: the reported units, then a default entry for every other expected seed. */
  function MissingJobs(h: Helpers, dir: string, status: string, prefix: string,
                       seeds: seq<Seed>, chunks: seq<Chunk>, existing: set<string>): JobMap
  {
    AddDefaults(Found(h, dir, status, prefix, seeds, chunks, existing), Expected(seeds, chunks))
  }

  /** The expected units whose chunk is not listed under their seed. */
  function DoneUnits(keys: seq<WorkUnit>, found: JobMap): seq<WorkUnit> {
    if keys == [] then []
    else
      var u := keys[|keys| - 1];
      DoneUnits(keys[..|keys| - 1], found) + (if u.chunk !in Lookup(found, u.seed) then [u] else [])
  }

  function DoneJobs(h: Helpers, dir: string, status: string, prefix: string,
                    seeds: seq<Seed>, chunks: seq<Chunk>, existing: set<string>): JobMap
  {
    GroupBySeed(DoneUnits(Expected(seeds, chunks), Found(h, dir, status, prefix, seeds, chunks, existing)))
  }

  lemma {:induction false} UnfinishedChecks(h: Helpers, dir: string, status: string, prefix: string,
                                            keys: seq<WorkUnit>, existing: set<string>, u: WorkUnit)
    ensures u in Unfinished(Checks(h, dir, status, prefix, keys), existing)
        <==> u in keys && CheckFor(h, dir, status, prefix, u).path !in existing
    decreases |keys|
  {
    if keys != [] {
      var init, last := keys[..|keys| - 1], keys[|keys| - 1];
      var c := CheckFor(h, dir, status, prefix, last);
      UnfinishedChecks(h, dir, status, prefix, init, existing, u);
      UnfinishedAppend(Checks(h, dir, status, prefix, init), [c], existing);
      UnfinishedOne(c, existing);
      InSnoc(keys, u);
    }
  }

  lemma UnfinishedOne(c: CheckCmd, existing: set<string>)
    ensures Unfinished([c], existing) == if c.path in existing then [] else [c.unit]
  {
    assert Unfinished([c], existing) == (if c.path in existing then [] else [c.unit]) + Unfinished([], existing);
  }

  lemma {:induction false} DoneUnitsMember(keys: seq<WorkUnit>, found: JobMap, u: WorkUnit)
    ensures u in DoneUnits(keys, found) <==> u in keys && u.chunk !in Lookup(found, u.seed)
    decreases |keys|
  {
    if keys != [] {
      var init, last := keys[..|keys| - 1], keys[|keys| - 1];
      DoneUnitsMember(init, found, u);
      assert keys == init + [last];
    }
  }

  /**
    The probe partitions the expected units: a unit's chunk is listed under its seed in the
    returned map exactly when its marker is absent on the host, and in the done map exactly when
    it is present; the returned map lists nothing else.
   */
  lemma ProbePartition(h: Helpers, dir: string, status: string, prefix: string,
                       seeds: seq<Seed>, chunks: seq<Chunk>, existing: set<string>, s: Seed, c: Chunk)
    ensures var onHost := HostPath(dir, status, DoneFile(h, dir, prefix, WorkUnit(s, c))) in existing;
      && ((c in Lookup(MissingJobs(h, dir, status, prefix, seeds, chunks, existing), s))
          <==> s in seeds && c in chunks && !onHost)
      && ((c in Lookup(DoneJobs(h, dir, status, prefix, seeds, chunks, existing), s))
          <==> s in seeds && c in chunks && onHost)
  {
    var keys := Expected(seeds, chunks);
    var unfinished := Unfinished(Checks(h, dir, status, prefix, keys), existing);
    var found := GroupBySeed(unfinished);
    var u := WorkUnit(s, c);
    ExpectedKeys(seeds, chunks);
    UnfinishedChecks(h, dir, status, prefix, keys, existing, u);
    AddDefaultsLookup(found, keys, s);
    GroupBySeedLookup(unfinished, s);
    ChunksOfMember(unfinished, s, c);
    var doneUnits := DoneUnits(keys, found);
    GroupBySeedLookup(doneUnits, s);
    ChunksOfMember(doneUnits, s, c);
    DoneUnitsMember(keys, found, u);
  }

  /**
    Because every expected unit reads `missing_jobs[seed]`, the returned map has a key for every
    expected seed (possibly with an empty list), and for no other seed.
   */
  lemma MissingJobsKeys(h: Helpers, dir: string, status: string, prefix: string,
                        seeds: seq<Seed>, chunks: seq<Chunk>, existing: set<string>, s: Seed)
    ensures s in Keys(MissingJobs(h, dir, status, prefix, seeds, chunks, existing)) <==> s in seeds && chunks != []
  {
    var keys := Expected(seeds, chunks);
    var unfinished := Unfinished(Checks(h, dir, status, prefix, keys), existing);
    ExpectedKeys(seeds, chunks);
    AddDefaultsKeys(GroupBySeed(unfinished), keys, s);
    GroupBySeedKeys(unfinished);
    DedupMembers(SeedsOf(unfinished));
    SeedsOfMember(unfinished, s);
    SeedsOfMember(keys, s);
    forall u | u in unfinished ensures u in keys {
      UnfinishedChecks(h, dir, status, prefix, keys, existing, u);
    }
    if s in seeds && chunks != [] {
      assert WorkUnit(s, chunks[0]) in keys;
    }
  }

  /**
    The partition of `ProbePartition` for the path the code tests: on a unit whose marker holds the
    output directory only at its start (or whose host names the directory as it is), the unit is
    missing exactly when the replaced path is absent and done exactly when it is present.
   */
  lemma ProbePartitionAsWritten(h: Helpers, dir: string, status: string, prefix: string,
                                seeds: seq<Seed>, chunks: seq<Chunk>, existing: set<string>, s: Seed, c: Chunk)
    requires ChunkNamingAssumed(h) && !IsAbsolute(prefix)
    requires status == dir || (dir != [] && OnlyLeading(dir, DoneFile(h, dir, prefix, WorkUnit(s, c))))
    ensures var onHost := HostPathAsWritten(dir, status, DoneFile(h, dir, prefix, WorkUnit(s, c))) in existing;
      && ((c in Lookup(MissingJobs(h, dir, status, prefix, seeds, chunks, existing), s))
          <==> s in seeds && c in chunks && !onHost)
      && ((c in Lookup(DoneJobs(h, dir, status, prefix, seeds, chunks, existing), s))
          <==> s in seeds && c in chunks && onHost)
  {
    MarkerUnderDir(h, dir, prefix, WorkUnit(s, c));
    HostPathAsWrittenAgrees(dir, status, DoneFile(h, dir, prefix, WorkUnit(s, c)));
    ProbePartition(h, dir, status, prefix, seeds, chunks, existing, s, c);
  }

  /**
    `get_remaining_jobs`. With `rerun_done` every seed gets the whole chunk list and nothing is
    probed. Otherwise the marker tests go out in one invocation, or in groups of 16 when there are
    more than 16 seeds; the output is parsed into the missing units; and reading `missing_jobs[seed]`
    for every expected unit both decides the done units and adds every expected seed as a key.
    `done` is the `done_jobs` map the code builds for its log message.
   */
  method GetRemainingJobs(h: Helpers, outputDir: string, statusDir: string, seeds: seq<Seed>, chunks: seq<Chunk>,
                          rerunDone: bool, prefix: string, slurm: bool, existing: set<string>)
    returns (missing: Result<JobMap>, done: JobMap, probes: seq<string>)
    ensures rerunDone ==> missing == Ok(Uniform(seeds, chunks)) && done == [] && probes == []
    ensures !rerunDone ==> missing == Ok(MissingJobs(h, outputDir, statusDir, prefix, seeds, chunks, existing))
    ensures !rerunDone ==> done == DoneJobs(h, outputDir, statusDir, prefix, seeds, chunks, existing)
    ensures !rerunDone ==>
      probes == ProbeCommands(Checks(h, outputDir, statusDir, prefix, Expected(seeds, chunks)), |seeds|)
  {
    if rerunDone {
      return Ok(Uniform(seeds, chunks)), [], [];
    }
    var keys, files := ExpectedDoneFiles(h, outputDir, seeds, chunks, prefix);
    var cmds: seq<CheckCmd> := [];
    for k := 0 to |keys|
      invariant cmds == Checks(h, outputDir, statusDir, prefix, keys[..k])
    {
      cmds := cmds + [CheckCmd(HostPath(outputDir, statusDir, files[keys[k]]), keys[k])];
      assert keys[..k + 1][..k] == keys[..k];
    }
    assert keys[..|keys|] == keys;

    var output;
    output, probes := RunProbe(cmds, |seeds|, slurm, existing);
    ParseOutput(output, Unfinished(cmds, existing));
    missing := ParseProbeOutput(output);
    done := [];
    if missing.Ok? {
      var m;
      m, done := SplitDone(missing.value, keys);
      missing := Ok(m);
    }
  }

  /** The probe invocations and their combined output (one invocation, or groups of 16 beyond 16 seeds). */
  method RunProbe(cmds: seq<CheckCmd>, seedCount: nat, slurm: bool, existing: set<string>)
    returns (output: string, probes: seq<string>)
    ensures probes == ProbeCommands(cmds, seedCount)
    ensures Lines(output) == MissingLines(Unfinished(cmds, existing))
  {
    if seedCount > RequestSize {
      output, probes := ProbeInGroups(cmds, slurm, existing);
    } else {
      probes := [RenderGroup(cmds)];
      output := RunGroup(cmds, existing);
      RunGroupLines(cmds, existing);
      if slurm {
        RunGroupChars(cmds, existing);
        StripLines(output);
        output := Strip(output);
      }
    }
  }

  /**
    The done loop: reading `missing_jobs[seed]` for every expected unit adds the seed as a key, and
    a unit whose chunk is not listed there is appended to `done_jobs[seed]`.
   */
  method SplitDone(found: JobMap, keys: seq<WorkUnit>) returns (missing: JobMap, done: JobMap)
    ensures missing == AddDefaults(found, keys)
    ensures done == GroupBySeed(DoneUnits(keys, found))
  {
    missing, done := found, [];
    for k := 0 to |keys|
      invariant missing == AddDefaults(found, keys[..k])
      invariant done == GroupBySeed(DoneUnits(keys[..k], found))
    {
      var u := keys[k];
      assert keys[..k + 1][..k] == keys[..k];
      var listed := Lookup(missing, u.seed);
      AddDefaultsLookup(found, keys[..k], u.seed);
      assert listed == Lookup(found, u.seed);
      missing := AddDefault(missing, u.seed);
      ghost var d := DoneUnits(keys[..k], found);
      assert DoneUnits(keys[..k + 1], found) == d + (if u.chunk !in listed then [u] else []);
      if u.chunk !in listed {
        GroupBySeedSnoc(d, u);
        done := AppendAt(done, u.seed, u.chunk);
      } else {
        assert d + [] == d;
      }
    }
    assert keys[..|keys|] == keys;
  }
}
