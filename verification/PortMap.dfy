/** The nginx map from subdomains to backend ports, kept as the text of a configuration file
    (billing/nginx_manager.py). Reading back what was written gives the same map exactly when the
    names are names the reader recognises, so adding and removing entries is plain map update. */
module PortMap {
  import opened Text

  // ---- Lines ----

  // The ASCII characters that end a line for str.splitlines.
  predicate IsLineEnd(c: char) { '\n' <= c <= '\r' || '\U{1c}' <= c <= '\U{1e}' }

  predicate OneLine(s: string) { forall i | 0 <= i < |s| :: !IsLineEnd(s[i]) }

  function SplitLines(s: string): (lines: seq<string>)
    ensures forall l | l in lines :: OneLine(l)
  {
    if s == "" then []
    else
      var n := Span(s, c => !IsLineEnd(c));
      if n == |s| then [s]
      else
        var skip := if s[n] == '\r' && n + 1 < |s| && s[n + 1] == '\n' then 2 else 1;
        [s[..n]] + SplitLines(s[n + skip..])
  }

  // The lines with a line feed between each two.
  function Join(lines: seq<string>): string
    requires lines != []
  {
    if |lines| == 1 then lines[0] else lines[0] + "\n" + Join(lines[1..])
  }

  lemma SplitFirst(line: string, rest: string)
    requires OneLine(line)
    ensures SplitLines(line + "\n" + rest) == [line] + SplitLines(rest)
  {
    var s := line + "\n" + rest;
    assert s == line + ("\n" + rest);
    SpanOfConcat(line, "\n" + rest, c => !IsLineEnd(c));
    assert s[..|line|] == line && s[|line| + 1..] == rest && s[|line|] == '\n';
  }

  lemma {:induction false} SplitOfJoin(lines: seq<string>)
    requires lines != [] && forall l | l in lines :: OneLine(l)
    ensures SplitLines(Join(lines) + "\n") == lines
  {
    hide SplitLines, OneLine;
    assert lines[0] in lines;
    if |lines| == 1 {
      SplitFirst(lines[0], "");
      assert lines[0] + "\n" + "" == Join(lines) + "\n";
      assert SplitLines("") == [] by { SplitNothing(); }
      assert lines == [lines[0]];
    } else {
      SplitFirst(lines[0], Join(lines[1..]) + "\n");
      assert lines[0] + "\n" + (Join(lines[1..]) + "\n") == Join(lines) + "\n";
      SplitOfJoin(lines[1..]);
      assert lines == [lines[0]] + lines[1..];
    }
  }

  lemma SplitNothing()
    ensures SplitLines("") == []
  {
  }

  // ---- Reading ----

  predicate IsNameChar(c: char) { IsWord(c) || c == '-' }

  // A name the reader recognises.
  predicate Readable(name: string) {
    name != "" && name != "default" && forall i | 0 <= i < |name| :: IsNameChar(name[i])
  }

  datatype Entry = Entry(name: string, port: nat)

  // Where the run of `p` characters that starts at `i` ends.
  function RunEnd(s: string, i: nat, p: char -> bool): (j: nat)
    requires i <= |s|
    ensures i <= j <= |s| && (j < |s| ==> !p(s[j]))
    ensures forall k | i <= k < j :: p(s[k])
    decreases |s| - i
  {
    if i < |s| && p(s[i]) then RunEnd(s, i + 1, p) else i
  }

  // White space, a name, white space, digits and a semicolon at the start of a line.
  function ParseLine(line: string): (e: Option<Entry>)
    ensures e.Some? ==> e.value.name != "" && forall i | 0 <= i < |e.value.name| :: IsNameChar(e.value.name[i])
  {
    var a := RunEnd(line, 0, IsSpace);
    var b := RunEnd(line, a, IsNameChar);
    var c := RunEnd(line, b, IsSpace);
    var d := RunEnd(line, c, IsDigit);
    if 0 < a < b < c < d < |line| && line[d] == ';' then Some(Entry(line[a..b], ParseDecimal(line[c..d]))) else None
  }

  function WithEntry(m: map<string, nat>, e: Option<Entry>): map<string, nat> {
    if e.Some? && e.value.name != "default" then m[e.value.name := e.value.port] else m
  }

  function ParseLines(lines: seq<string>): (m: map<string, nat>)
    ensures forall n | n in m :: Readable(n)
  {
    if lines == [] then map[] else WithEntry(ParseLines(lines[..|lines| - 1]), ParseLine(lines[|lines| - 1]))
  }

  function Parse(text: string): (m: map<string, nat>)
    ensures forall n | n in m :: Readable(n)
  {
    ParseLines(SplitLines(text))
  }

  // ---- Writing ----

  lemma {:induction false} LeastExists(names: set<string>)
    requires names != {}
    ensures exists x :: x in names && forall y | y in names && y != x :: Before(x, y)
  {
    var x :| x in names;
    var rest := names - {x};
    if rest == {} {
      assert forall y | y in names && y != x :: y in rest;
    } else {
      LeastExists(rest);
      var z :| z in rest && forall y | y in rest && y != z :: Before(z, y);
      BeforeTotal(x, z);
      var least := if Before(x, z) then x else z;
      forall y | y in names && y != least
        ensures Before(least, y)
      {
        if least == x && y != z {
          BeforeTransitive(x, z, y);
        }
      }
    }
  }

  function Least(names: set<string>): (x: string)
    requires names != {}
    ensures x in names && forall y | y in names && y != x :: Before(x, y)
  {
    LeastExists(names);
    assert forall x, y | x in names && y in names && Before(x, y) :: !Before(y, x) by {
      forall x, y | x in names && y in names
        ensures !(Before(x, y) && Before(y, x))
      {
        BeforeTotal(x, y);
      }
    }
    var x :| x in names && forall y | y in names && y != x :: Before(x, y);
    x
  }

  function Sorted(names: set<string>): (r: seq<string>)
    ensures forall n :: n in r <==> n in names
    ensures forall i, k | 0 <= i < k < |r| :: Before(r[i], r[k]) && r[i] != r[k]
  {
    if names == {} then []
    else
      var x := Least(names);
      [x] + Sorted(names - {x})
  }

  function EntryLine(name: string, port: nat): string { "    " + name + "  " + Decimal(port) + ";" }

  const HEADER := "map $client $backend_port {"
  const DEFAULT_LINE := "    default   8001;"
  const FOOTER := "}"

  function EntryLines(m: map<string, nat>, names: seq<string>): (lines: seq<string>)
    requires forall n | n in names :: n in m
    ensures |lines| == |names|
  {
    if names == [] then []
    else
      assert names[|names| - 1] in names;
      EntryLines(m, names[..|names| - 1]) + [EntryLine(names[|names| - 1], m[names[|names| - 1]])]
  }

  function Print(m: map<string, nat>): string {
    Join([HEADER] + EntryLines(m, Sorted(m.Keys)) + [DEFAULT_LINE, FOOTER]) + "\n"
  }

  // ---- Reading back ----

  // A line laid out as the reader wants it is read as its name and digits.
  lemma ParseLaidOut(line: string, a: nat, b: nat, c: nat, d: nat)
    requires 0 < a < b < c < d < |line| && line[d] == ';'
    requires (forall k | 0 <= k < a :: IsSpace(line[k])) && (forall k | a <= k < b :: IsNameChar(line[k]))
    requires (forall k | b <= k < c :: IsSpace(line[k])) && (forall k | c <= k < d :: IsDigit(line[k]))
    ensures ParseLine(line) == Some(Entry(line[a..b], ParseDecimal(line[c..d])))
  {
    hide RunEnd, ParseDecimal;
    assert !IsSpace(line[a]) && !IsNameChar(line[b]) && !IsSpace(line[c]) && !IsDigit(line[d]);
    var a0 := RunEnd(line, 0, IsSpace);
    assert a0 == a;
    var b0 := RunEnd(line, a, IsNameChar);
    assert b0 == b;
    var c0 := RunEnd(line, b, IsSpace);
    assert c0 == c;
    var d0 := RunEnd(line, c, IsDigit);
    assert d0 == d;
  }

  lemma ParseEntryLine(name: string, port: nat)
    requires name != "" && forall i | 0 <= i < |name| :: IsNameChar(name[i])
    ensures ParseLine(EntryLine(name, port)) == Some(Entry(name, port))
  {
    hide ParseLine, Decimal, ParseDecimal;
    var line, digits := EntryLine(name, port), Decimal(port);
    var b := 4 + |name|;
    var d := b + 2 + |digits|;
    assert line[4..b] == name && line[b + 2..d] == digits && line[d] == ';';
    assert forall k | 4 <= k < b :: line[k] == name[k - 4];
    assert forall k | b + 2 <= k < d :: line[k] == digits[k - b - 2];
    ParseLaidOut(line, 4, b, b + 2, d);
    ParseOfDecimal(port);
  }

  lemma FixedLines()
    ensures ParseLine(HEADER) == None && ParseLine(FOOTER) == None
    ensures ParseLine(DEFAULT_LINE).Some? && ParseLine(DEFAULT_LINE).value.name == "default"
  {
    hide ParseDecimal;
    var s := DEFAULT_LINE;
    assert s[4..11] == "default";
    ParseLaidOut(s, 4, 11, 14, 18);
  }

  lemma FixedAreLines()
    ensures OneLine(HEADER) && OneLine(DEFAULT_LINE) && OneLine(FOOTER)
  {
  }

  lemma EntryLineIsOne(name: string, port: nat)
    requires Readable(name)
    ensures OneLine(EntryLine(name, port))
  {
    var line, digits := EntryLine(name, port), Decimal(port);
    forall i | 0 <= i < |line|
      ensures !IsLineEnd(line[i])
    {
      assert line[i] in " ;" || line[i] in name || line[i] in digits;
    }
  }

  lemma {:induction false} ParseEntryLines(m: map<string, nat>, names: seq<string>)
    requires forall n | n in names :: n in m && Readable(n)
    ensures ParseLines([HEADER] + EntryLines(m, names)) == map n | n in m && n in names :: m[n]
    ensures forall l | l in EntryLines(m, names) :: OneLine(l)
  {
    hide ParseLine, EntryLine, OneLine;
    var lines := [HEADER] + EntryLines(m, names);
    if names == [] {
      FixedLines();
      assert lines == [HEADER] && lines[..0] == [];
    } else {
      var before, last := names[..|names| - 1], names[|names| - 1];
      assert last in names;
      ParseEntryLines(m, before);
      ParseEntryLine(last, m[last]);
      EntryLineIsOne(last, m[last]);
      assert lines[..|lines| - 1] == [HEADER] + EntryLines(m, before);
      assert names == before + [last];
    }
  }

  lemma ParseTail(lines: seq<string>)
    ensures ParseLines(lines + [DEFAULT_LINE, FOOTER]) == ParseLines(lines)
  {
    hide ParseLine;
    FixedLines();
    var all := lines + [DEFAULT_LINE, FOOTER];
    assert all[..|all| - 1] == lines + [DEFAULT_LINE];
    assert (lines + [DEFAULT_LINE])[..|lines|] == lines;
  }

  /** Reading back a written file gives the map that was written, exactly when every name in it is
      non-empty, made of word characters and hyphens, and not the reserved name. */
  lemma RoundTrip(m: map<string, nat>)
    ensures Parse(Print(m)) == m <==> forall n | n in m :: Readable(n)
  {
    hide ParseLines, SplitLines, ParseLine;
    if forall n | n in m :: Readable(n) {
      var names := Sorted(m.Keys);
      var lines := [HEADER] + EntryLines(m, names);
      ParseEntryLines(m, names);
      FixedAreLines();
      SplitOfJoin(lines + [DEFAULT_LINE, FOOTER]);
      ParseTail(lines);
      assert (map n | n in m && n in names :: m[n]) == m;
    }
  }

  // ---- The file over runs of updates ----

  // What the file says; a missing file has no entries.
  function Entries(text: Option<string>): (m: map<string, nat>)
    ensures forall n | n in m :: Readable(n)
  {
    if text.None? then map[] else Parse(text.value)
  }

  datatype Update = Add(name: string, port: nat) | Remove(name: string)

  function ApplyToFile(text: Option<string>, u: Update): Option<string> {
    match u
    case Add(name, port) => Some(Print(Entries(text)[name := port]))
    case Remove(name) => if name in Entries(text) then Some(Print(Entries(text) - {name})) else text
  }

  function ApplyToMap(m: map<string, nat>, u: Update): map<string, nat> {
    match u
    case Add(name, port) => m[name := port]
    case Remove(name) => m - {name}
  }

  function RunFile(text: Option<string>, updates: seq<Update>): Option<string> {
    if updates == [] then text else ApplyToFile(RunFile(text, updates[..|updates| - 1]), updates[|updates| - 1])
  }

  function RunMap(m: map<string, nat>, updates: seq<Update>): map<string, nat> {
    if updates == [] then m else ApplyToMap(RunMap(m, updates[..|updates| - 1]), updates[|updates| - 1])
  }

  /** One update of the file is the same update of the map, exactly when it does not add a name that
      cannot be read back. Whatever the file held before does not matter. */
  lemma UpdateRefines(text: Option<string>, u: Update)
    ensures Entries(ApplyToFile(text, u)) == ApplyToMap(Entries(text), u) <==> (u.Add? ==> Readable(u.name))
  {
    hide Parse, Print, Readable;
    RoundTrip(ApplyToMap(Entries(text), u));
    if u.Add? {
      assert u.name in ApplyToMap(Entries(text), u);
    } else if u.name !in Entries(text) {
      assert Entries(text) - {u.name} == Entries(text);
    }
  }

  /** Any run of additions of readable names and removals keeps the file in step with a plain map. */
  lemma {:induction false} RunRefines(text: Option<string>, updates: seq<Update>)
    requires forall k | 0 <= k < |updates| :: updates[k].Add? ==> Readable(updates[k].name)
    ensures Entries(RunFile(text, updates)) == RunMap(Entries(text), updates)
  {
    hide Entries, ApplyToFile, ApplyToMap;
    if updates != [] {
      RunRefines(text, updates[..|updates| - 1]);
      UpdateRefines(RunFile(text, updates[..|updates| - 1]), updates[|updates| - 1]);
    }
  }

  // ---- The file ----

  class PortFile {
    var text: Option<string>

    constructor ()
      ensures text == None
    {
      text := None;
    }

    method ReadEntries() returns (entries: map<string, nat>)
      ensures entries == Entries(text)
    {
      hide SplitLines, ParseLine;
      entries := map[];
      if text.None? {
        return;
      }
      var lines := SplitLines(text.value);
      for k := 0 to |lines|
        invariant entries == ParseLines(lines[..k])
      {
        assert lines[..k + 1][..k] == lines[..k];
        var e := ParseLine(lines[k]);
        if e.Some? && e.value.name != "default" {
          entries := entries[e.value.name := e.value.port];
        }
      }
      assert lines[..|lines|] == lines;
    }

    method WriteEntries(entries: map<string, nat>)
      modifies this
      ensures text == Some(Print(entries))
    {
      hide Sorted, EntryLine, Join;
      var lines := [HEADER];
      var names := Sorted(entries.Keys);
      for k := 0 to |names|
        invariant text == old(text)
        invariant lines == [HEADER] + EntryLines(entries, names[..k])
      {
        assert names[..k + 1][..k] == names[..k] && names[k] in names;
        lines := lines + [EntryLine(names[k], entries[names[k]])];
      }
      assert names[..|names|] == names;
      lines := lines + [DEFAULT_LINE];
      lines := lines + [FOOTER];
      assert lines == [HEADER] + EntryLines(entries, names) + [DEFAULT_LINE, FOOTER];
      text := Some(Join(lines) + "\n");
    }

    method AddClientPort(subdomain: string, port: nat)
      modifies this
      ensures text == ApplyToFile(old(text), Add(subdomain, port))
      ensures Readable(subdomain) ==> Entries(text) == Entries(old(text))[subdomain := port]
    {
      hide Entries, Print;
      var entries := ReadEntries();
      entries := entries[subdomain := port];
      WriteEntries(entries);
      UpdateRefines(old(text), Add(subdomain, port));
    }

    method RemoveClientPort(subdomain: string)
      modifies this
      ensures text == ApplyToFile(old(text), Remove(subdomain))
      ensures Entries(text) == Entries(old(text)) - {subdomain}
    {
      hide Entries, Print;
      var entries := ReadEntries();
      UpdateRefines(text, Remove(subdomain));
      if subdomain in entries {
        entries := entries - {subdomain};
        WriteEntries(entries);
      }
    }
  }
}
