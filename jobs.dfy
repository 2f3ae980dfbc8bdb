/**
  The `seed -> [chunk ids]` dictionaries of `get_remaining_jobs` (nemo_skills/pipeline/generate.py):
  insertion-ordered `defaultdict(list)` values, kept as their item lists.
 */
module Jobs {
  import opened Naming

  /** An insertion-ordered dict from seeds to chunk lists, as the list of its items. */
  type JobMap = seq<(Seed, seq<Chunk>)>

  /** The dict's keys in insertion order. */
  function Keys(m: JobMap): seq<Seed> {
    if m == [] then [] else [m[0].0] + Keys(m[1..])
  }

  /** The list stored under `s`, or the empty list a `defaultdict(list)` hands out for a new key. */
  function Lookup(m: JobMap, s: Seed): seq<Chunk> {
    if m == [] then [] else if m[0].0 == s then m[0].1 else Lookup(m[1..], s)
  }

  /** `m[s].append(c)`: extends the list of an existing key, or adds the key at the end. */
  function AppendAt(m: JobMap, s: Seed, c: Chunk): JobMap {
    if m == [] then [(s, [c])]
    else if m[0].0 == s then [(s, m[0].1 + [c])] + m[1..]
    else [m[0]] + AppendAt(m[1..], s, c)
  }

  /** The key insertion a bare read `m[s]` of a `defaultdict(list)` performs. */
  function AddDefault(m: JobMap, s: Seed): JobMap {
    if s in Keys(m) then m else m + [(s, [])]
  }

  lemma {:induction false} KeysSnoc(m: JobMap, p: (Seed, seq<Chunk>))
    ensures Keys(m + [p]) == Keys(m) + [p.0]
    decreases |m|
  {
    if m == [] {
      assert Keys([p]) == [p.0] + Keys([]);
    } else {
      assert (m + [p])[1..] == m[1..] + [p];
      KeysSnoc(m[1..], p);
    }
  }

  lemma {:induction false} LookupSnoc(m: JobMap, p: (Seed, seq<Chunk>), t: Seed)
    ensures Lookup(m + [p], t) == if t in Keys(m) then Lookup(m, t) else if t == p.0 then p.1 else []
    decreases |m|
  {
    if m != [] {
      assert (m + [p])[1..] == m[1..] + [p];
      LookupSnoc(m[1..], p, t);
    }
  }

  /** Appending to one key's list extends that list and no other. */
  lemma {:induction false} AppendAtLookup(m: JobMap, s: Seed, c: Chunk, t: Seed)
    ensures Lookup(AppendAt(m, s, c), t) == Lookup(m, t) + (if t == s then [c] else [])
    decreases |m|
  {
    if m != [] && m[0].0 != s {
      AppendAtLookup(m[1..], s, c, t);
    }
  }

  /** Appending under a new key adds it at the end of the key order; an existing key keeps its place. */
  lemma {:induction false} AppendAtKeys(m: JobMap, s: Seed, c: Chunk)
    ensures Keys(AppendAt(m, s, c)) == if s in Keys(m) then Keys(m) else Keys(m) + [s]
    decreases |m|
  {
    if m != [] && m[0].0 != s {
      AppendAtKeys(m[1..], s, c);
    }
  }

  /** A bare read changes no list. */
  lemma AddDefaultLookup(m: JobMap, s: Seed, t: Seed)
    ensures Lookup(AddDefault(m, s), t) == Lookup(m, t)
  {
    if s !in Keys(m) {
      LookupSnoc(m, (s, []), t);
      if t !in Keys(m) {
        LookupAbsent(m, t);
      }
    }
  }

  lemma {:induction false} LookupAbsent(m: JobMap, t: Seed)
    requires t !in Keys(m)
    ensures Lookup(m, t) == []
    decreases |m|
  {
    if m != [] {
      LookupAbsent(m[1..], t);
    }
  }

  // ---------------------------------------------------------------------------
  // Dicts built from unit sequences

  /** The seeds of a unit sequence, in order. */
  function SeedsOf(us: seq<WorkUnit>): seq<Seed> {
    if us == [] then [] else SeedsOf(us[..|us| - 1]) + [us[|us| - 1].seed]
  }

  /** The chunks of the units of seed `s`, in order. */
  function ChunksOf(us: seq<WorkUnit>, s: Seed): seq<Chunk> {
    if us == [] then []
    else ChunksOf(us[..|us| - 1], s) + (if us[|us| - 1].seed == s then [us[|us| - 1].chunk] else [])
  }

  /** `m[seed].append(chunk)` for every unit in order, starting from an empty dict. */
  function GroupBySeed(us: seq<WorkUnit>): JobMap {
    if us == [] then [] else AppendAt(GroupBySeed(us[..|us| - 1]), us[|us| - 1].seed, us[|us| - 1].chunk)
  }

  lemma GroupBySeedSnoc(us: seq<WorkUnit>, u: WorkUnit)
    ensures GroupBySeed(us + [u]) == AppendAt(GroupBySeed(us), u.seed, u.chunk)
  {
    assert (us + [u])[..|us|] == us;
  }

  /** `m[u.seed]` read for every unit in order. */
  function AddDefaults(m: JobMap, us: seq<WorkUnit>): JobMap {
    if us == [] then m else AddDefault(AddDefaults(m, us[..|us| - 1]), us[|us| - 1].seed)
  }

  lemma {:induction false} SeedsOfMember(us: seq<WorkUnit>, s: Seed)
    ensures s in SeedsOf(us) <==> exists u :: u in us && u.seed == s
    decreases |us|
  {
    if us != [] {
      var init, last := us[..|us| - 1], us[|us| - 1];
      SeedsOfMember(init, s);
      assert us == init + [last];
    }
  }

  lemma {:induction false} ChunksOfMember(us: seq<WorkUnit>, s: Seed, c: Chunk)
    ensures c in ChunksOf(us, s) <==> WorkUnit(s, c) in us
    decreases |us|
  {
    if us != [] {
      var init, last := us[..|us| - 1], us[|us| - 1];
      ChunksOfMember(init, s, c);
      assert us == init + [last];
    }
  }

  /** Grouping units by seed files each chunk under its seed, in unit order. */
  lemma {:induction false} GroupBySeedLookup(us: seq<WorkUnit>, s: Seed)
    ensures Lookup(GroupBySeed(us), s) == ChunksOf(us, s)
    decreases |us|
  {
    if us != [] {
      var init, last := us[..|us| - 1], us[|us| - 1];
      GroupBySeedLookup(init, s);
      AppendAtLookup(GroupBySeed(init), last.seed, last.chunk, s);
    }
  }

  /** The grouped dict's keys are the units' seeds, each once, in order of first appearance. */
  lemma {:induction false} GroupBySeedKeys(us: seq<WorkUnit>)
    ensures Keys(GroupBySeed(us)) == Dedup(SeedsOf(us))
    decreases |us|
  {
    if us != [] {
      var init, last := us[..|us| - 1], us[|us| - 1];
      GroupBySeedKeys(init);
      AppendAtKeys(GroupBySeed(init), last.seed, last.chunk);
      DedupSnoc(SeedsOf(init), last.seed);
    }
  }

  /** Bare reads change no list. */
  lemma {:induction false} AddDefaultsLookup(m: JobMap, us: seq<WorkUnit>, t: Seed)
    ensures Lookup(AddDefaults(m, us), t) == Lookup(m, t)
    decreases |us|
  {
    if us != [] {
      AddDefaultsLookup(m, us[..|us| - 1], t);
      AddDefaultLookup(AddDefaults(m, us[..|us| - 1]), us[|us| - 1].seed, t);
    }
  }

  /** After reading `m[u.seed]` for every unit, every unit's seed is a key, and nothing else was added. */
  lemma {:induction false} AddDefaultsKeys(m: JobMap, us: seq<WorkUnit>, t: Seed)
    ensures t in Keys(AddDefaults(m, us)) <==> t in Keys(m) || t in SeedsOf(us)
    decreases |us|
  {
    if us != [] {
      var init, last := us[..|us| - 1], us[|us| - 1];
      AddDefaultsKeys(m, init, t);
      var prev := AddDefaults(m, init);
      if last.seed !in Keys(prev) {
        KeysSnoc(prev, (last.seed, []));
      }
    }
  }

  // ---------------------------------------------------------------------------
  // Rerunning everything

  /** `{seed: chunk_ids for seed in seeds}`: each distinct seed once, each with the full chunk list. */
  function Uniform(seeds: seq<Seed>, chunks: seq<Chunk>): JobMap {
    if seeds == [] then []
    else
      var prev := Uniform(seeds[..|seeds| - 1], chunks);
      if seeds[|seeds| - 1] in Keys(prev) then prev else prev + [(seeds[|seeds| - 1], chunks)]
  }

  /** With `rerun_done`, every seed asks for every chunk, and no other seed appears. */
  lemma {:induction false} UniformLookup(seeds: seq<Seed>, chunks: seq<Chunk>, t: Seed)
    ensures Lookup(Uniform(seeds, chunks), t) == if t in seeds then chunks else []
    ensures Keys(Uniform(seeds, chunks)) == Dedup(seeds)
    decreases |seeds|
  {
    if seeds != [] {
      var init, last := seeds[..|seeds| - 1], seeds[|seeds| - 1];
      UniformLookup(init, chunks, t);
      var prev := Uniform(init, chunks);
      DedupMembers(init);
      DedupSnoc(init, last);
      if last !in Keys(prev) {
        KeysSnoc(prev, (last, chunks));
        LookupSnoc(prev, (last, chunks), t);
      }
      assert seeds == init + [last];
    }
  }

  // ---------------------------------------------------------------------------
  // Iterating a dict's items

  /** The units `for seed, chunk_ids in m.items(): for chunk_id in chunk_ids` visits, in order. */
  function Units(m: JobMap): seq<WorkUnit> {
    if m == [] then [] else Units(m[..|m| - 1]) + Row(m[|m| - 1].0, m[|m| - 1].1)
  }

  /** A dict's keys are distinct, so iterating its items visits exactly the stored pairs. */
  lemma {:induction false} UnitsMember(m: JobMap, u: WorkUnit)
    requires Distinct(Keys(m))
    ensures u in Units(m) <==> u.seed in Keys(m) && u.chunk in Lookup(m, u.seed)
    decreases |m|
  {
    if m != [] {
      var init, p := m[..|m| - 1], m[|m| - 1];
      assert m == init + [p];
      KeysSnoc(init, p);
      var k := Keys(init);
      assert Distinct(k) by {
        forall i, j | 0 <= i < j < |k| ensures k[i] != k[j] {
          assert (k + [p.0])[i] == k[i] && (k + [p.0])[j] == k[j];
        }
      }
      forall i | 0 <= i < |k| ensures k[i] != p.0 {
        assert (k + [p.0])[i] == k[i] && (k + [p.0])[|k|] == p.0;
      }
      UnitsMember(init, u);
      LookupSnoc(init, p, u.seed);
      RowMembers(p.0, p.1, u);
      if u.seed !in k {
        LookupAbsent(init, u.seed);
      }
    }
  }

  /** Default insertions add only absent keys, so they keep the keys distinct. */
  lemma {:induction false} AddDefaultsDistinct(m: JobMap, us: seq<WorkUnit>)
    requires Distinct(Keys(m))
    ensures Distinct(Keys(AddDefaults(m, us)))
    decreases |us|
  {
    if us != [] {
      var prev := AddDefaults(m, us[..|us| - 1]);
      var s := us[|us| - 1].seed;
      AddDefaultsDistinct(m, us[..|us| - 1]);
      if s !in Keys(prev) {
        KeysSnoc(prev, (s, []));
      }
    }
  }

  /** Grouping units by seed gives each seed one key. */
  lemma GroupBySeedDistinct(us: seq<WorkUnit>)
    ensures Distinct(Keys(GroupBySeed(us)))
  {
    GroupBySeedKeys(us);
    DedupMembers(SeedsOf(us));
  }
}
