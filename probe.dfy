/**
  The completion probe of `get_remaining_jobs` (nemo_skills/pipeline/generate.py): each unit's
  `MISSING:<seed>:<chunk>` line, the shell test that echoes it when the unit's marker is absent,
  and the parse of the probe's output back into units.
 */
module Probe {
  import opened Wrappers
  import opened PyStr
  import opened Naming
  import opened Seqs

  // ---------------------------------------------------------------------------
  // Encoding a unit as a probe line

  /** The probe's text for an optional id: `NONE`, or the decimal form of the id. */
  function Tag(x: Option<int>): string {
    if x.None? then "NONE" else IntToStr(x.value)
  }

  /** The parse of one tag: `NONE` is None, anything else goes through `int()`. */
  function ParseTag(t: string): Result<Option<int>> {
    if t == "NONE" then Ok(None)
    else
      var n :- ParseInt(t);
      Ok(Some(n))
  }

  predicate NoSpace(s: string) {
    forall i :: 0 <= i < |s| ==> !IsSpace(s[i])
  }

  lemma TagChars(x: Option<int>)
    ensures Tag(x) != [] && NoSpace(Tag(x))
    ensures ':' !in Tag(x) && '\n' !in Tag(x)
  {
    if x.Some? {
      IntToStrChars(x.value);
    }
  }

  /** Every tag parses back to the id it encodes. */
  lemma TagRoundTrip(x: Option<int>)
    ensures ParseTag(Tag(x)) == Ok(x)
  {
    if x.Some? {
      IntToStrChars(x.value);
      assert Tag(x)[0] != 'N';
      ParseIntRoundTrip(x.value);
    }
  }

  /** The line the probe echoes for a unit whose marker is absent. */
  function MissingLine(u: WorkUnit): string {
    "MISSING:" + Tag(u.seed) + ":" + Tag(u.chunk)
  }

  /**
    The parse of one output line: a line not starting with `MISSING:` says nothing; a marked line
    must split at ':' into exactly three pieces (else tuple unpacking raises ValueError) whose
    tags must parse.
   */
  function ParseLine(line: string): Result<Option<WorkUnit>> {
    if !StartsWith(line, "MISSING:") then Ok(None)
    else
      var parts := Split(line, ':');
      if |parts| != 3 then Err(ValueError("not enough values to unpack"))
      else
        var seed :- ParseTag(parts[1]);
        var chunk :- ParseTag(parts[2]);
        Ok(Some(WorkUnit(seed, chunk)))
  }

  lemma MissingLineChars(u: WorkUnit)
    ensures MissingLine(u) != [] && NoSpace(MissingLine(u)) && '\n' !in MissingLine(u)
  {
    TagChars(u.seed);
    TagChars(u.chunk);
    var t1, t2 := Tag(u.seed), Tag(u.chunk);
    assert MissingLine(u) == "MISSING:" + t1 + ":" + t2;
    forall i | 0 <= i < |MissingLine(u)|
      ensures !IsSpace(MissingLine(u)[i]) && MissingLine(u)[i] != '\n'
    {
      if i >= 8 + |t1| + 1 {
        assert MissingLine(u)[i] == t2[i - 9 - |t1|];
      } else if 8 <= i < 8 + |t1| {
        assert MissingLine(u)[i] == t1[i - 8];
      }
    }
  }

  /** Encoding a unit as a probe line and parsing the line back gives the unit. */
  lemma LineRoundTrip(u: WorkUnit)
    ensures ParseLine(MissingLine(u)) == Ok(Some(u))
  {
    var line := MissingLine(u);
    assert line[..8] == "MISSING:";
    SplitMissingLine(u);
    TagRoundTrip(u.seed);
    TagRoundTrip(u.chunk);
  }

  lemma SplitMissingLine(u: WorkUnit)
    ensures Split(MissingLine(u), ':') == ["MISSING", Tag(u.seed), Tag(u.chunk)]
  {
    var t1, t2 := Tag(u.seed), Tag(u.chunk);
    TagChars(u.seed);
    TagChars(u.chunk);
    var head := "MISSING";
    assert MissingLine(u) == head + [':'] + (t1 + [':'] + t2);
    SplitAround(head, t1 + [':'] + t2, ':');
    SplitAround(t1, t2, ':');
    MarkerHasNoColon();
    SplitNoSep(head, ':');
    SplitNoSep(t1, ':');
    SplitNoSep(t2, ':');
  }

  lemma MarkerHasNoColon()
    ensures ':' !in "MISSING"
  {
  }

  // ---------------------------------------------------------------------------
  // The probe commands and the shell that runs them

  /** One probe test: the host path of a unit's marker, and the unit it reports. */
  datatype CheckCmd = CheckCmd(path: string, unit: WorkUnit)

  /** The shell text of one test. */
  function RenderCheck(c: CheckCmd): string {
    "if [ ! -f \"" + c.path + "\" ]; then echo \"" + MissingLine(c.unit) + "\"; fi"
  }

  function RenderChecks(cs: seq<CheckCmd>): seq<string> {
    if cs == [] then [] else RenderChecks(cs[..|cs| - 1]) + [RenderCheck(cs[|cs| - 1])]
  }

  /** One probe invocation: the tests of a group joined by `; ` inside `bash -c '...'`. */
  function RenderGroup(group: seq<CheckCmd>): string {
    "bash -c '" + Join("; ", RenderChecks(group)) + "'"
  }

  /** What one test prints, given the host paths that exist. */
  function Echo(c: CheckCmd, existing: set<string>): string {
    if c.path in existing then [] else MissingLine(c.unit) + "\n"
  }

  /** The standard output of one probe invocation: the tests' lines in order. */
  function RunGroup(group: seq<CheckCmd>, existing: set<string>): string {
    if group == [] then [] else Echo(group[0], existing) + RunGroup(group[1..], existing)
  }

  /** The units whose test finds no marker, in test order. */
  function Unfinished(cs: seq<CheckCmd>, existing: set<string>): seq<WorkUnit> {
    if cs == [] then []
    else (if cs[0].path in existing then [] else [cs[0].unit]) + Unfinished(cs[1..], existing)
  }

  lemma {:induction false} UnfinishedAppend(a: seq<CheckCmd>, b: seq<CheckCmd>, existing: set<string>)
    ensures Unfinished(a + b, existing) == Unfinished(a, existing) + Unfinished(b, existing)
    decreases |a|
  {
    if a == [] {
      assert a + b == b;
    } else {
      assert (a + b)[0] == a[0] && (a + b)[1..] == a[1..] + b;
      UnfinishedAppend(a[1..], b, existing);
    }
  }

  // ---------------------------------------------------------------------------
  // Lines of output

  /** The non-empty pieces of a list of lines. */
  function NonEmpty(ps: seq<string>): seq<string> {
    if ps == [] then [] else (if ps[0] == [] then [] else [ps[0]]) + NonEmpty(ps[1..])
  }

  lemma {:induction false} NonEmptyAppend(a: seq<string>, b: seq<string>)
    ensures NonEmpty(a + b) == NonEmpty(a) + NonEmpty(b)
    decreases |a|
  {
    if a == [] {
      assert a + b == b;
    } else {
      assert (a + b)[0] == a[0] && (a + b)[1..] == a[1..] + b;
      NonEmptyAppend(a[1..], b);
    }
  }

  /** The non-blank lines of an output. */
  function Lines(s: string): seq<string> {
    NonEmpty(Split(s, '\n'))
  }

  /** The expected lines for a sequence of missing units. */
  function MissingLines(us: seq<WorkUnit>): seq<string> {
    if us == [] then [] else MissingLines(us[..|us| - 1]) + [MissingLine(us[|us| - 1])]
  }

  lemma {:induction false} MissingLinesAppend(a: seq<WorkUnit>, b: seq<WorkUnit>)
    ensures MissingLines(a + b) == MissingLines(a) + MissingLines(b)
    decreases |b|
  {
    if b == [] {
      assert a + b == a;
    } else {
      assert (a + b)[..|a + b| - 1] == a + b[..|b| - 1];
      assert (a + b)[|a + b| - 1] == b[|b| - 1];
      MissingLinesAppend(a, b[..|b| - 1]);
    }
  }

  /** Output characters: newlines, or characters that are not whitespace. */
  predicate ProbeChars(s: string) {
    forall i :: 0 <= i < |s| ==> s[i] == '\n' || !IsSpace(s[i])
  }

  lemma ProbeCharsAppend(a: string, b: string)
    requires ProbeChars(a) && ProbeChars(b)
    ensures ProbeChars(a + b)
  {
    forall i | 0 <= i < |a + b| ensures (a + b)[i] == '\n' || !IsSpace((a + b)[i]) {
      if i >= |a| {
        assert (a + b)[i] == b[i - |a|];
      }
    }
  }

  /** The probe output of one invocation has exactly the lines of its absent units. */
  lemma {:induction false} RunGroupLines(group: seq<CheckCmd>, existing: set<string>)
    ensures Lines(RunGroup(group, existing)) == MissingLines(Unfinished(group, existing))
    decreases |group|
  {
    if group == [] {
      assert Lines([]) == [];
    } else {
      var c, rest := group[0], group[1..];
      RunGroupLines(rest, existing);
      var out, units := RunGroup(rest, existing), Unfinished(rest, existing);
      if c.path !in existing {
        assert RunGroup(group, existing) == MissingLine(c.unit) + "\n" + out;
        assert Unfinished(group, existing) == [c.unit] + units;
        LineThen(c.unit, out);
        MissingLinesAppend([c.unit], units);
      } else {
        assert RunGroup(group, existing) == out;
        assert Unfinished(group, existing) == units;
      }
    }
  }

  lemma {:induction false} RunGroupChars(group: seq<CheckCmd>, existing: set<string>)
    ensures ProbeChars(RunGroup(group, existing))
    decreases |group|
  {
    if group != [] {
      var c, rest := group[0], group[1..];
      RunGroupChars(rest, existing);
      if c.path !in existing {
        LineThen(c.unit, RunGroup(rest, existing));
      }
    }
  }

  /** A unit's line followed by more output: one more line in front. */
  lemma LineThen(u: WorkUnit, rest: string)
    ensures Lines(MissingLine(u) + "\n" + rest) == [MissingLine(u)] + Lines(rest)
    ensures ProbeChars(rest) ==> ProbeChars(MissingLine(u) + "\n" + rest)
    ensures MissingLines([u]) == [MissingLine(u)]
  {
    var line := MissingLine(u);
    MissingLineChars(u);
    assert line + "\n" + rest == line + ['\n'] + rest;
    SplitAround(line, rest, '\n');
    SplitNoSep(line, '\n');
    NonEmptyAppend([line], Split(rest, '\n'));
    assert ProbeChars(line + "\n");
    if ProbeChars(rest) {
      ProbeCharsAppend(line + "\n", rest);
    }
    assert [u][..0] == [];
  }

  lemma {:induction false} StripLeftLines(s: string)
    requires ProbeChars(s)
    ensures Lines(StripLeft(s)) == Lines(s) && ProbeChars(StripLeft(s))
    decreases |s|
  {
    if s != [] && IsSpace(s[0]) {
      assert ProbeChars(s[1..]);
      StripLeftLines(s[1..]);
    }
  }

  lemma {:induction false} StripRightLines(s: string)
    requires ProbeChars(s)
    ensures Lines(StripRight(s)) == Lines(s) && ProbeChars(StripRight(s))
    decreases |s|
  {
    if s != [] && IsSpace(s[|s| - 1]) {
      var t := s[..|s| - 1];
      assert s == t + ['\n'] + [];
      SplitAround(t, [], '\n');
      NonEmptyAppend(Split(t, '\n'), [[]]);
      assert ProbeChars(t);
      StripRightLines(t);
    }
  }

  /** Stripping surrounding whitespace from a probe output keeps its lines. */
  lemma StripLines(s: string)
    requires ProbeChars(s)
    ensures Lines(Strip(s)) == Lines(s) && ProbeChars(Strip(s))
  {
    StripLeftLines(s);
    StripRightLines(StripLeft(s));
  }

  /** Joining outputs with newlines concatenates their lines, in order. */
  lemma LinesJoinSnoc(outs: seq<string>, out: string)
    ensures Lines(Join("\n", outs + [out])) == Lines(Join("\n", outs)) + Lines(out)
    ensures ProbeChars(Join("\n", outs)) && ProbeChars(out) ==> ProbeChars(Join("\n", outs + [out]))
  {
    if outs == [] {
      assert outs + [out] == [out];
      assert Lines([]) == [];
    } else {
      JoinSnoc("\n", outs, out);
      SplitAround(Join("\n", outs), out, '\n');
      NonEmptyAppend(Split(Join("\n", outs), '\n'), Split(out, '\n'));
      if ProbeChars(Join("\n", outs)) && ProbeChars(out) {
        ProbeCharsAppend(Join("\n", outs), "\n");
        ProbeCharsAppend(Join("\n", outs) + "\n", out);
      }
    }
  }

  // ---------------------------------------------------------------------------
  // Parsing the output

  /** The units named by the marked lines, in order; the first malformed line's exception otherwise. */
  function ParseLines(lines: seq<string>): Result<seq<WorkUnit>> {
    if lines == [] then Ok([])
    else
      var prev := ParseLines(lines[..|lines| - 1]);
      if prev.Err? then prev
      else
        var o := ParseLine(lines[|lines| - 1]);
        if o.Err? then Err(o.error)
        else Ok(if o.value.Some? then prev.value + [o.value.value] else prev.value)
  }

  lemma {:induction false} ParseLinesAppend(a: seq<string>, b: seq<string>)
    ensures ParseLines(a + b) ==
      (if ParseLines(a).Err? then ParseLines(a)
       else if ParseLines(b).Err? then Err(ParseLines(b).error)
       else Ok(ParseLines(a).value + ParseLines(b).value))
    decreases |b|
  {
    if b == [] {
      assert a + b == a;
      assert ParseLines(b) == Ok([]);
      if ParseLines(a).Ok? {
        assert ParseLines(a).value + [] == ParseLines(a).value;
      }
    } else {
      var b', last := b[..|b| - 1], b[|b| - 1];
      assert (a + b)[..|a + b| - 1] == a + b';
      assert (a + b)[|a + b| - 1] == last;
      ParseLinesAppend(a, b');
      if ParseLines(a).Ok? && ParseLines(b').Ok? && ParseLine(last).Ok? {
        var o := ParseLine(last).value;
        var x, y := ParseLines(a).value, ParseLines(b').value;
        if o.Some? {
          assert ParseLines(a + b) == Ok(x + y + [o.value]);
          assert ParseLines(b) == Ok(y + [o.value]);
          assert x + y + [o.value] == x + (y + [o.value]);
        }
      }
    }
  }

  /** Once a prefix of the lines fails to parse, the whole output fails with the same exception. */
  lemma {:induction false} ParseLinesErr(lines: seq<string>, i: nat)
    requires i <= |lines| && ParseLines(lines[..i]).Err?
    ensures ParseLines(lines) == ParseLines(lines[..i])
    decreases |lines| - i
  {
    if i < |lines| {
      assert lines[..i + 1][..i] == lines[..i];
      ParseLinesErr(lines, i + 1);
    } else {
      assert lines[..i] == lines;
    }
  }

  /** Blank lines carry no units. */
  lemma {:induction false} ParseNonEmpty(ps: seq<string>)
    ensures ParseLines(NonEmpty(ps)) == ParseLines(ps)
    decreases |ps|
  {
    if ps != [] {
      ParseNonEmpty(ps[1..]);
      assert ps == [ps[0]] + ps[1..];
      ParseLinesAppend([ps[0]], ps[1..]);
      if ps[0] == [] {
        assert NonEmpty(ps) == NonEmpty(ps[1..]);
        assert ParseLines([ps[0]]) == Ok([]);
        var rest := ParseLines(ps[1..]);
        if rest.Ok? {
          assert [] + rest.value == rest.value;
        }
      } else {
        assert NonEmpty(ps) == [ps[0]] + NonEmpty(ps[1..]);
        ParseLinesAppend([ps[0]], NonEmpty(ps[1..]));
      }
    }
  }

  /** The lines of missing units parse back to those units, in order. */
  lemma {:induction false} ParseMissingLines(us: seq<WorkUnit>)
    ensures ParseLines(MissingLines(us)) == Ok(us)
    decreases |us|
  {
    if us != [] {
      var init, last := us[..|us| - 1], us[|us| - 1];
      var ls := MissingLines(us);
      assert ls == MissingLines(init) + [MissingLine(last)];
      FrontOfSnoc(MissingLines(init), MissingLine(last));
      ParseMissingLines(init);
      LineRoundTrip(last);
      Snoc(us);
    }
  }

  /** `splitlines` differs from splitting at newlines only by a trailing blank piece. */
  lemma SplitLinesParse(s: string)
    ensures ParseLines(SplitLines(s)) == ParseLines(Split(s, '\n'))
  {
    var p := Split(s, '\n');
    if s == [] {
      assert ParseLines(p) == ParseLines([[]]);
    } else if p[|p| - 1] == [] {
      assert ParseLine(p[|p| - 1]) == Ok(None);
    }
  }

  /** An output whose non-blank lines are the lines of `us` parses to `us`. */
  lemma ParseOutput(output: string, us: seq<WorkUnit>)
    requires Lines(output) == MissingLines(us)
    ensures ParseLines(SplitLines(output)) == Ok(us)
  {
    SplitLinesParse(output);
    ParseNonEmpty(Split(output, '\n'));
    ParseMissingLines(us);
  }
}
