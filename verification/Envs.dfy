/** Parsing newline-separated KEY=VAL text, as read from os-release and
    update.conf. Characters stand for bytes. */
module Envs {

  /** The scanner's token limit: a line this long ends the scan. */
  const LIMIT := 65536

  /** Where c first occurs in s, or |s|. */
  function IndexOf(s: string, c: char): (k: nat)
    ensures k <= |s| && c !in s[..k] && (k < |s| ==> s[k] == c)
  {
    if s == [] then 0
    else if s[0] == c then 0
    else
      var k := IndexOf(s[1..], c);
      assert s[..1 + k] == [s[0]] + s[1..][..k];
      1 + k
  }

  /** A line loses one trailing carriage return. */
  function DropCR(s: string): string {
    if s != "" && s[|s| - 1] == '\r' then s[..|s| - 1] else s
  }

  /** The lines the scanner yields. */
  function Scan(s: string): seq<string> {
    if s == "" then []
    else
      var k := IndexOf(s, '\n');
      if k >= LIMIT then []
      else [DropCR(s[..k])] + (if k < |s| then Scan(s[k + 1..]) else [])
  }

  /** One line: split at the first '=', or skipped if there is none. */
  function Assign(m: map<string, string>, line: string): map<string, string> {
    var k := IndexOf(line, '=');
    if k == |line| then m else m[line[..k] := line[k + 1..]]
  }

  function AssignAll(m: map<string, string>, lines: seq<string>): map<string, string>
    decreases lines
  {
    if lines == [] then m else AssignAll(Assign(m, lines[0]), lines[1..])
  }

  function Parse(m: map<string, string>, s: string): map<string, string> {
    AssignAll(m, Scan(s))
  }

  /** splitNewlineEnv */
  method SplitNewlineEnv(m: map<string, string>, envs: string) returns (r: map<string, string>)
    ensures r == Parse(m, envs)
  {
    r := m;
    var rest := envs;
    while rest != ""
      invariant Parse(r, rest) == Parse(m, envs)
      decreases |rest|
    {
      var k := IndexOf(rest, '\n');
      if k >= LIMIT {
        return;
      }
      var line := DropCR(rest[..k]);
      var next := if k < |rest| then rest[k + 1..] else "";
      assert Scan(rest) == [line] + Scan(next);
      assert ([line] + Scan(next))[1..] == Scan(next);
      var e := IndexOf(line, '=');
      if e < |line| {
        r := r[line[..e] := line[e + 1..]];
      }
      rest := next;
    }
  }

  lemma {:induction false} AssignAllOverrides(m: map<string, string>, lines: seq<string>)
    ensures AssignAll(m, lines) == m + AssignAll(map[], lines)
    decreases lines
  {
    if lines != [] {
      AssignAllOverrides(Assign(m, lines[0]), lines[1..]);
      AssignAllOverrides(Assign(map[], lines[0]), lines[1..]);
      assert Assign(m, lines[0]) == m + Assign(map[], lines[0]);
    }
  }

  /** Parsing b on top of a overrides a's entries by b's. */
  lemma ParseOverrides(m: map<string, string>, a: string, b: string)
    ensures Parse(Parse(m, a), b) == m + Parse(map[], a) + Parse(map[], b)
  {
    AssignAllOverrides(Parse(m, a), Scan(b));
    AssignAllOverrides(m, Scan(a));
  }

  // ---------------------------------------------------------------------
  // Printing and parsing back

  function Print(pairs: seq<(string, string)>): string {
    if pairs == [] then "" else pairs[0].0 + "=" + pairs[0].1 + "\n" + Print(pairs[1..])
  }

  predicate Printable(k: string, v: string) {
    && '=' !in k && '\n' !in k && '\n' !in v
    && (v != "" ==> v[|v| - 1] != '\r')
    && |k| + 1 + |v| < 65536
  }

  function FromPairs(m: map<string, string>, pairs: seq<(string, string)>): map<string, string>
    decreases pairs
  {
    if pairs == [] then m else FromPairs(m[pairs[0].0 := pairs[0].1], pairs[1..])
  }

  lemma {:induction false} IndexOfAt(a: string, c: char, b: string)
    requires c !in a
    ensures IndexOf(a + [c] + b, c) == |a|
  {
    if a != "" {
      assert (a + [c] + b)[1..] == a[1..] + [c] + b;
      IndexOfAt(a[1..], c, b);
    }
  }

  lemma ScanLine(line: string, rest: string)
    requires '\n' !in line && |line| < LIMIT
    ensures Scan(line + "\n" + rest) == [DropCR(line)] + Scan(rest)
  {
    IndexOfAt(line, '\n', rest);
    var s := line + "\n" + rest;
    assert s == line + ['\n'] + rest;
    assert s[..|line|] == line && s[|line| + 1..] == rest;
  }

  lemma AssignLine(m: map<string, string>, k: string, v: string)
    requires '=' !in k
    ensures Assign(m, k + "=" + v) == m[k := v]
  {
    IndexOfAt(k, '=', v);
    var line := k + "=" + v;
    assert line == k + ['='] + v;
    assert line[..|k|] == k && line[|k| + 1..] == v;
  }

  lemma ParseFirst(m: map<string, string>, line: string, rest: string)
    requires '\n' !in line && |line| < LIMIT
    ensures Parse(m, line + "\n" + rest) == Parse(Assign(m, DropCR(line)), rest)
  {
    ScanLine(line, rest);
    var all := [DropCR(line)] + Scan(rest);
    assert all[0] == DropCR(line) && all[1..] == Scan(rest);
  }

  lemma ParseLine(m: map<string, string>, k: string, v: string, rest: string)
    requires Printable(k, v)
    ensures Parse(m, k + "=" + v + "\n" + rest) == Parse(m[k := v], rest)
  {
    LineSets(m, k, v, rest);
  }

  lemma {:induction false} ParsePrint(m: map<string, string>, pairs: seq<(string, string)>)
    requires forall j :: 0 <= j < |pairs| ==> Printable(pairs[j].0, pairs[j].1)
    ensures Parse(m, Print(pairs)) == FromPairs(m, pairs)
    decreases pairs
  {
    if pairs != [] {
      ParseLine(m, pairs[0].0, pairs[0].1, Print(pairs[1..]));
      ParsePrint(m[pairs[0].0 := pairs[0].1], pairs[1..]);
    }
  }

  /** The entries of a map, in some order, each at least once. */
  predicate Lists(pairs: seq<(string, string)>, m: map<string, string>) {
    && (forall j :: 0 <= j < |pairs| ==> pairs[j].0 in m && m[pairs[j].0] == pairs[j].1)
    && (forall k :: k in m ==> (k, m[k]) in pairs)
  }

  lemma {:induction false} FromPairsAt(m0: map<string, string>, pairs: seq<(string, string)>, m: map<string, string>)
    requires forall j :: 0 <= j < |pairs| ==> pairs[j].0 in m && m[pairs[j].0] == pairs[j].1
    requires forall k :: k in m0 ==> k in m && m[k] == m0[k]
    ensures var r := FromPairs(m0, pairs);
      && (forall k :: k in r ==> k in m && m[k] == r[k])
      && (forall k :: k in m0 || (k in m && (k, m[k]) in pairs) ==> k in r)
    decreases pairs
  {
    if pairs != [] {
      FromPairsAt(m0[pairs[0].0 := pairs[0].1], pairs[1..], m);
    }
  }

  /** Printing a finite map in any order and parsing it gives the map back. */
  lemma RoundTrip(pairs: seq<(string, string)>, m: map<string, string>)
    requires Lists(pairs, m)
    requires forall k :: k in m ==> Printable(k, m[k])
    ensures Parse(map[], Print(pairs)) == m
  {
    ParsePrint(map[], pairs);
    FromPairsAt(map[], pairs, m);
  }

  // ---------------------------------------------------------------------
  // Every kind of line

  /** A line with a '=' sets what is before the first one to what is after it, less
      one trailing carriage return. */
  lemma LineSets(m: map<string, string>, k: string, v: string, rest: string)
    requires '=' !in k && '\n' !in k && '\n' !in v && |k| + 1 + |v| < 65536
    ensures Parse(m, k + "=" + v + "\n" + rest)
            == Parse(m[k := if v != "" && v[|v| - 1] == '\r' then v[..|v| - 1] else v], rest)
  {
    var line := k + "=" + v;
    var u := if v != "" && v[|v| - 1] == '\r' then v[..|v| - 1] else v;
    ParseFirst(m, line, rest);
    assert DropCR(line) == k + "=" + u;
    AssignLine(m, k, u);
  }

  /** A line without one is skipped. */
  lemma LineSkipped(m: map<string, string>, line: string, rest: string)
    requires '=' !in line && '\n' !in line && |line| < 65536
    ensures Parse(m, line + "\n" + rest) == Parse(m, rest)
  {
    ParseFirst(m, line, rest);
    assert '=' !in DropCR(line);
  }

  /** A line beyond the scanner's limit ends the parse, whatever follows. */
  lemma LineEndsParse(m: map<string, string>, line: string, rest: string)
    requires '\n' !in line && |line| >= 65536
    ensures Parse(m, line + rest) == m
  {
    var s := line + rest;
    assert s[..|line|] == line;
    assert forall j :: 0 <= j < |line| ==> s[j] == line[j];
    assert IndexOf(s, '\n') >= |line|;
  }

  /** The last line needs no newline. */
  lemma LastLine(m: map<string, string>, line: string)
    requires '\n' !in line
    ensures Parse(m, line) == Parse(m, line + "\n") && Parse(m, "") == m
  {
    var s := line + "\n";
    IndexOfAt(line, '\n', "");
    assert s == line + ['\n'] + "";
    assert s[..|line|] == line && s[|line| + 1..] == "";
    assert IndexOf(line, '\n') == |line| && line[..|line|] == line;
    if |line| < 65536 {
      var one := [DropCR(line)];
      assert Scan(s) == one + Scan("") == one;
      assert one[1..] == [] && AssignAll(m, one) == Assign(m, DropCR(line));
    }
  }

  // ---------------------------------------------------------------------
  // Exactly the printable entries survive

  predicate Clean(m: map<string, string>) {
    forall k :: k in m ==> '=' !in k && '\n' !in k && '\n' !in m[k]
  }

  lemma {:induction false} AssignAllClean(m: map<string, string>, lines: seq<string>)
    requires Clean(m) && forall j :: 0 <= j < |lines| ==> '\n' !in lines[j]
    ensures Clean(AssignAll(m, lines))
    decreases lines
  {
    if lines != [] {
      AssignAllClean(Assign(m, lines[0]), lines[1..]);
    }
  }

  lemma {:induction false} ScanClean(s: string)
    ensures forall j :: 0 <= j < |Scan(s)| ==> '\n' !in Scan(s)[j]
  {
    if s != "" {
      var k := IndexOf(s, '\n');
      if k < |s| {
        ScanClean(s[k + 1..]);
      }
    }
  }

  lemma ParseClean(s: string)
    ensures Clean(Parse(map[], s))
  {
    ScanClean(s);
    AssignAllClean(map[], Scan(s));
  }

  /** One entry survives printing and parsing if and only if it is printable. */
  lemma SurvivesIffPrintable(k: string, v: string)
    ensures Parse(map[], Print([(k, v)])) == map[k := v] <==> Printable(k, v)
  {
    var s := Print([(k, v)]);
    var none: seq<(string, string)> := [];
    assert [(k, v)][1..] == none && Print(none) == "";
    assert s == k + "=" + v + "\n";
    if Printable(k, v) {
      ParsePrint(map[], [(k, v)]);
      assert FromPairs(map[k := v], none) == map[k := v];
    } else {
      var r := Parse(map[], s);
      ParseClean(s);
      if '=' in k || '\n' in k {
        assert k !in r;
      } else if '\n' in v {
        assert k in r ==> r[k] != v;
      } else if |k| + 1 + |v| >= LIMIT {
        LineEndsParse(map[], k + "=" + v, "\n");
        assert k !in r;
      } else {
        LineSets(map[], k, v, "");
        assert k + "=" + v + "\n" + "" == s && Scan("") == [];
        assert |r[k]| < |v|;
      }
      assert k in map[k := v] && map[k := v][k] == v;
    }
  }
}
