/**
  The Python string builtins the planner relies on, on `seq<char>`:
  `str(int)`, `int(str)`, `str.split`, `str.join`, `str.strip`, `str.splitlines`,
  `str.startswith`, `str.replace`, `os.path.join`, `shlex.quote` and `range`.
 */
module PyStr {
  import opened Wrappers

  // ---------------------------------------------------------------------------
  // Integers and their decimal form

  predicate IsDigit(c: char) {
    '0' <= c <= '9'
  }

  predicate AllDigits(s: string) {
    forall i :: 0 <= i < |s| ==> IsDigit(s[i])
  }

  function DigitChar(d: nat): (c: char)
    requires d < 10
    ensures IsDigit(c)
  {
    ['0', '1', '2', '3', '4', '5', '6', '7', '8', '9'][d]
  }

  function DigitValue(c: char): (d: nat)
    requires IsDigit(c)
    ensures d < 10
  {
    (c as int - '0' as int) as nat
  }

  lemma DigitRoundTrip(d: nat)
    requires d < 10
    ensures DigitValue(DigitChar(d)) == d
  {
  }

  /** Decimal digits of a natural number, most significant first. */
  function NatToStr(n: nat): (s: string)
    ensures s != [] && AllDigits(s)
    decreases n
  {
    if n < 10 then [DigitChar(n)] else NatToStr(n / 10) + [DigitChar(n % 10)]
  }

  /** Python `str(n)` for an integer. */
  function IntToStr(n: int): string {
    if n < 0 then "-" + NatToStr(-n) else NatToStr(n)
  }

  /** Value of a string of decimal digits read left to right. */
  function DigitsValue(s: string): nat
    requires AllDigits(s)
  {
    if s == [] then 0 else DigitsValue(s[..|s| - 1]) * 10 + DigitValue(s[|s| - 1])
  }

  /** Python `int(s)` on an optional sign followed by ASCII digits; anything else is a ValueError. */
  function ParseInt(s: string): (r: Result<int>)
    ensures r.Ok? ==> s != []
  {
    if s != [] && (s[0] == '-' || s[0] == '+') && s[1..] != [] && AllDigits(s[1..]) then
      var v: int := DigitsValue(s[1..]); Ok(if s[0] == '-' then -v else v)
    else if s != [] && AllDigits(s) then
      Ok(DigitsValue(s))
    else
      Err(ValueError("invalid literal for int()"))
  }

  lemma {:induction false} NatToStrValue(n: nat)
    ensures DigitsValue(NatToStr(n)) == n
    decreases n
  {
    if n >= 10 {
      NatToStrValue(n / 10);
      var s := NatToStr(n);
      assert s[..|s| - 1] == NatToStr(n / 10);
      DigitRoundTrip(n % 10);
    } else {
      DigitRoundTrip(n);
    }
  }

  /** `int(str(n)) == n`: the decimal form of an integer parses back to it. */
  lemma ParseIntRoundTrip(n: int)
    ensures ParseInt(IntToStr(n)) == Ok(n)
  {
    if n < 0 {
      NegativeRoundTrip(n);
    } else {
      NonNegativeRoundTrip(n);
    }
  }

  lemma NonNegativeRoundTrip(n: int)
    requires n >= 0
    ensures ParseInt(IntToStr(n)) == Ok(n)
  {
    var d := NatToStr(n);
    assert IntToStr(n) == d;
    assert IsDigit(d[0]);
    NatToStrValue(n);
    assert ParseInt(d) == Ok(DigitsValue(d));
  }

  lemma NegativeRoundTrip(n: int)
    requires n < 0
    ensures ParseInt(IntToStr(n)) == Ok(n)
  {
    var d := NatToStr(-n);
    var s := "-" + d;
    assert IntToStr(n) == s;
    assert s[0] == '-' && s[1..] == d;
    NatToStrValue(-n);
    assert ParseInt(s) == Ok(-(DigitsValue(d) as int));
  }

  lemma IntToStrInjective(m: int, n: int)
    requires IntToStr(m) == IntToStr(n)
    ensures m == n
  {
    ParseIntRoundTrip(m);
    ParseIntRoundTrip(n);
  }

  /** The decimal form of an integer is a sign and digits only: it holds no separator character. */
  lemma IntToStrChars(n: int)
    ensures IntToStr(n) != []
    ensures forall i :: 0 <= i < |IntToStr(n)| ==> IntToStr(n)[i] == '-' || IsDigit(IntToStr(n)[i])
    ensures IsDigit(IntToStr(n)[|IntToStr(n)| - 1])
  {
  }

  // ---------------------------------------------------------------------------
  // split and join

  /** Python `s.split(sep)` for a one-character separator. */
  function Split(s: string, sep: char): (r: seq<string>)
    ensures |r| >= 1
  {
    if s == [] then [[]]
    else
      var rest := Split(s[1..], sep);
      if s[0] == sep then [[]] + rest else [[s[0]] + rest[0]] + rest[1..]
  }

  /** Splitting at a separator splits each side independently. */
  lemma {:induction false} SplitAround(a: string, b: string, sep: char)
    ensures Split(a + [sep] + b, sep) == Split(a, sep) + Split(b, sep)
    decreases |a|
  {
    if a == [] {
      assert a + [sep] + b == [sep] + b;
      assert ([sep] + b)[1..] == b;
    } else {
      assert (a + [sep] + b)[1..] == a[1..] + [sep] + b;
      SplitAround(a[1..], b, sep);
    }
  }

  lemma {:induction false} SplitNoSep(s: string, sep: char)
    requires sep !in s
    ensures Split(s, sep) == [s]
    decreases |s|
  {
    if s != [] {
      SplitNoSep(s[1..], sep);
      assert [s[0]] + s[1..] == s;
    }
  }

  /** A string that does not start with the separator starts its first piece. */
  lemma SplitHead(s: string, sep: char)
    requires s != [] && s[0] != sep
    ensures Split(s, sep)[0] != [] && Split(s, sep)[0][0] == s[0]
  {
  }

  /** A string that does not end with the separator ends its last piece. */
  lemma {:induction false} SplitLast(s: string, sep: char)
    requires s != [] && s[|s| - 1] != sep
    ensures var p := Split(s, sep); p[|p| - 1] != [] && p[|p| - 1][|p[|p| - 1]| - 1] == s[|s| - 1]
    decreases |s|
  {
    if |s| > 1 {
      SplitLast(s[1..], sep);
    }
  }

  /** Python `sep.join(parts)`. */
  function Join(sep: string, parts: seq<string>): string {
    if parts == [] then []
    else if |parts| == 1 then parts[0]
    else parts[0] + sep + Join(sep, parts[1..])
  }

  /** `"\n".join(outs).split("\n")` is the concatenation of each output's pieces. */
  lemma {:induction false} SplitJoin(outs: seq<string>, sep: char)
    requires outs != []
    ensures Split(Join([sep], outs), sep) == SplitAll(outs, sep)
    decreases |outs|
  {
    if |outs| > 1 {
      SplitJoin(outs[1..], sep);
      SplitAround(outs[0], Join([sep], outs[1..]), sep);
    }
  }

  /** Joining one more part adds the separator and the part at the end. */
  lemma {:induction false} JoinSnoc(sep: string, parts: seq<string>, p: string)
    requires parts != []
    ensures Join(sep, parts + [p]) == Join(sep, parts) + sep + p
    decreases |parts|
  {
    if |parts| > 1 {
      assert (parts + [p])[1..] == parts[1..] + [p];
      JoinSnoc(sep, parts[1..], p);
    }
  }

  function SplitAll(outs: seq<string>, sep: char): seq<string> {
    if outs == [] then [] else Split(outs[0], sep) + SplitAll(outs[1..], sep)
  }

  // ---------------------------------------------------------------------------
  // strip, splitlines, startswith, replace

  /** Python `str.isspace` for one character. */
  predicate IsSpace(c: char) {
    c == ' ' || c == '\t' || c == '\n' || c == '\r' || c == '\U{000B}' || c == '\U{000C}'
    || ('\U{001C}' <= c <= '\U{001F}') || c == '\U{0085}' || c == '\U{00A0}' || c == '\U{1680}'
    || ('\U{2000}' <= c <= '\U{200A}') || c == '\U{2028}' || c == '\U{2029}' || c == '\U{202F}'
    || c == '\U{205F}' || c == '\U{3000}'
  }

  function StripLeft(s: string): string {
    if s != [] && IsSpace(s[0]) then StripLeft(s[1..]) else s
  }

  function StripRight(s: string): string {
    if s != [] && IsSpace(s[|s| - 1]) then StripRight(s[..|s| - 1]) else s
  }

  /** Python `s.strip()`. */
  function Strip(s: string): string {
    StripRight(StripLeft(s))
  }

  /** Python `s.splitlines()`, with '\n' as the only line boundary. */
  function SplitLines(s: string): seq<string> {
    if s == [] then []
    else
      var p := Split(s, '\n');
      if p[|p| - 1] == [] then p[..|p| - 1] else p
  }

  predicate StartsWith(s: string, prefix: string) {
    |prefix| <= |s| && s[..|prefix|] == prefix
  }

  predicate EndsWith(s: string, suffix: string) {
    |suffix| <= |s| && s[|s| - |suffix|..] == suffix
  }

  /** `a` starts and `c` ends the string `a + b + c`. */
  lemma Affixes(a: string, b: string, c: string)
    ensures StartsWith(a + b + c, a)
    ensures EndsWith(a + b + c, c)
  {
    assert (a + b + c)[..|a|] == a;
    assert (a + b + c)[|a + b + c| - |c|..] == c;
  }

  /** Python `s.replace(old, new)`: every non-overlapping occurrence, left to right. */
  function ReplaceAll(s: string, pattern: string, repl: string): string
    decreases |s|
  {
    if pattern == [] then
      (if s == [] then repl else repl + [s[0]] + ReplaceAll(s[1..], pattern, repl))
    else if StartsWith(s, pattern) then
      repl + ReplaceAll(s[|pattern|..], pattern, repl)
    else if s == [] then []
    else [s[0]] + ReplaceAll(s[1..], pattern, repl)
  }

  // ---------------------------------------------------------------------------
  // paths and shell quoting

  predicate IsAbsolute(path: string) {
    path != [] && path[0] == '/'
  }

  /** POSIX `os.path.join(dir, name)`. */
  function PathJoin(dir: string, name: string): (r: string)
    ensures !IsAbsolute(name) ==> StartsWith(r, dir)
    ensures IsAbsolute(name) ==> r == name
  {
    if IsAbsolute(name) then name
    else if dir == [] || dir[|dir| - 1] == '/' then dir + name
    else dir + "/" + name
  }

  /** Names that are both absolute or both relative join onto a directory without collisions. */
  lemma PathJoinInjective(dir: string, a: string, b: string)
    requires IsAbsolute(a) == IsAbsolute(b)
    requires PathJoin(dir, a) == PathJoin(dir, b)
    ensures a == b
  {
    if !IsAbsolute(a) {
      var p := if dir == [] || dir[|dir| - 1] == '/' then dir else dir + "/";
      assert PathJoin(dir, a) == p + a && PathJoin(dir, b) == p + b;
      assert a == (p + a)[|p|..];
    }
  }

  /** Characters `shlex.quote` leaves unquoted: ASCII word characters and `@%+=:,./-`. */
  predicate ShellSafe(c: char) {
    ('a' <= c <= 'z') || ('A' <= c <= 'Z') || ('0' <= c <= '9') || c == '_'
    || c == '@' || c == '%' || c == '+' || c == '=' || c == ':' || c == ',' || c == '.' || c == '/' || c == '-'
  }

  /** Python `shlex.quote(s)`. */
  function ShellQuote(s: string): (r: string)
    ensures r != []
  {
    if s == [] then "''"
    else if forall i :: 0 <= i < |s| ==> ShellSafe(s[i]) then s
    else "'" + ReplaceAll(s, "'", "'\"'\"'") + "'"
  }

  /** Python `str(x)` for an optional string: None prints as "None". */
  function StrOrNone(s: Option<string>): string {
    if s.Some? then s.value else "None"
  }

  /** Python `str(x)` for an optional integer. */
  function IntOrNone(n: Option<int>): string {
    if n.Some? then IntToStr(n.value) else "None"
  }

  /** Python `list(range(lo, hi))`. */
  function Range(lo: int, hi: int): (r: seq<int>)
    ensures |r| == if lo < hi then hi - lo else 0
    ensures forall i :: 0 <= i < |r| ==> r[i] == lo + i
    decreases hi - lo
  {
    if lo >= hi then [] else [lo] + Range(lo + 1, hi)
  }
}
