/** The Settings line: splitting at top-level commas, and reading "key = 'value'" back. */
module PlanSettings {
  import opened PlanQuoting
  import opened Text

  const APOSTROPHE := '\''

  /** What a scan position is inside of. */
  datatype Nesting = Nesting(depth: int, quote: char)

  const NO_QUOTE := '\0'
  const TOP := Nesting(0, NO_QUOTE)

  predicate Cuts(c: char, at: Nesting) {
    c == ',' && at == TOP
  }

  function Enter(c: char, at: Nesting): Nesting {
    if at.quote != NO_QUOTE then (if c == at.quote then at.(quote := NO_QUOTE) else at)
    else if c == APOSTROPHE || c == QUOTE then at.(quote := c)
    else if c == '(' || c == '[' then at.(depth := at.depth + 1)
    else if c == ')' || c == ']' then at.(depth := at.depth - 1)
    else at
  }

  /** The top-level parts of s, part being the one under way. */
  function Parts(s: string, part: string, at: Nesting): seq<string> {
    if s == [] then (if Trim(part) == "" then [] else [Trim(part)])
    else if Cuts(s[0], at) then [Trim(part)] + Parts(s[1..], "", at)
    else Parts(s[1..], part + [s[0]], Enter(s[0], at))
  }

  /** The first place " = " stands in s, -1 without one. */
  function Equals(s: string): (r: int)
    ensures -1 <= r <= |s| - 3 || r == -1
    ensures r >= 0 ==> s[r..r + 3] == " = "
  {
    if |s| < 3 then -1
    else if s[..3] == " = " then 0
    else
      var r := Equals(s[1..]);
      if r == -1 then -1 else
        assert s[1..][r..r + 3] == s[r + 1..r + 4];
        r + 1
  }

  function AddSetting(out: map<string, string>, part: string): map<string, string> {
    var i := Equals(part);
    if i < 0 then out
    else out[Trim(part[..i]) := Unquote(Trim(part[i + 3..]), APOSTROPHE)]
  }

  function Settings(parts: seq<string>): map<string, string> {
    if parts == [] then map[] else AddSetting(Settings(parts[..|parts| - 1]), parts[|parts| - 1])
  }

  // ----- printing

  /** A configuration parameter name. */
  predicate PlainKey(s: string) {
    s != [] && forall i :: 0 <= i < |s| ==> PlainChar(s[i])
  }

  predicate PlainChar(c: char) {
    !Blank(c) && c != NO_QUOTE && c !in ['\'', '"', '(', ')', '[', ']', ',']
  }

  function PrintSetting(key: string, value: string): string {
    key + " = " + Quoted(value, APOSTROPHE)
  }

  function PrintSettings(pairs: seq<(string, string)>): string {
    if pairs == [] then ""
    else if |pairs| == 1 then PrintSetting(pairs[0].0, pairs[0].1)
    else PrintSetting(pairs[0].0, pairs[0].1) + ", " + PrintSettings(pairs[1..])
  }

  lemma {:induction false} PlainPassed(x: string, rest: string, part: string)
    requires forall i :: 0 <= i < |x| ==> PlainChar(x[i]) || x[i] == ' '
    ensures Parts(x + rest, part, TOP) == Parts(rest, part + x, TOP)
  {
    if x == [] {
      assert x + rest == rest && part + x == part;
    } else {
      PlainPassed(x[1..], rest, part + [x[0]]);
      assert (x + rest)[1..] == x[1..] + rest;
      assert (part + [x[0]]) + x[1..] == part + x;
    }
  }

  lemma {:induction false} ValuePassed(x: string, rest: string, part: string)
    ensures Parts(Double(x, APOSTROPHE) + rest, part, Nesting(0, APOSTROPHE))
         == Parts(rest, part + Double(x, APOSTROPHE), Nesting(0, APOSTROPHE))
  {
    var body := Double(x, APOSTROPHE);
    if x == [] {
      assert body + rest == rest && part + body == part;
    } else {
      var tail := Double(x[1..], APOSTROPHE);
      if x[0] == APOSTROPHE {
        ValuePassed(x[1..], rest, part + [APOSTROPHE] + [APOSTROPHE]);
        assert (body + rest)[1..] == [APOSTROPHE] + (tail + rest);
        assert ([APOSTROPHE] + (tail + rest))[1..] == tail + rest;
        assert part + [APOSTROPHE] + [APOSTROPHE] + tail == part + body;
      } else {
        ValuePassed(x[1..], rest, part + [x[0]]);
        assert (body + rest)[1..] == tail + rest;
        assert part + [x[0]] + tail == part + body;
      }
    }
  }

  lemma SettingPassed(key: string, value: string, rest: string, part: string)
    requires PlainKey(key)
    ensures Parts(PrintSetting(key, value) + rest, part, TOP) == Parts(rest, part + PrintSetting(key, value), TOP)
  {
    var before, body := key + " = ", Double(value, APOSTROPHE);
    var s := PrintSetting(key, value) + rest;
    assert s == before + ([APOSTROPHE] + (body + ([APOSTROPHE] + rest)));
    PlainPassed(before, [APOSTROPHE] + (body + ([APOSTROPHE] + rest)), part);
    assert ([APOSTROPHE] + (body + ([APOSTROPHE] + rest)))[1..] == body + ([APOSTROPHE] + rest);
    ValuePassed(value, [APOSTROPHE] + rest, part + before + [APOSTROPHE]);
    assert ([APOSTROPHE] + rest)[1..] == rest;
    assert part + before + [APOSTROPHE] + body + [APOSTROPHE] == part + PrintSetting(key, value);
  }

  lemma {:induction false} EqualsAt(s: string, k: nat)
    requires k + 3 <= |s| && s[k..k + 3] == " = " && forall i :: 0 <= i < k ==> s[i] != ' '
    ensures Equals(s) == k
  {
    if k > 0 {
      assert s[..3][0] == s[0];
      assert s[1..][k - 1..k + 2] == s[k..k + 3];
      EqualsAt(s[1..], k - 1);
    }
  }

  lemma PlainEquals(key: string, rest: string)
    requires forall i :: 0 <= i < |key| ==> key[i] != ' '
    ensures Equals(key + " = " + rest) == |key|
  {
    var s := key + " = " + rest;
    assert s[|key|..|key| + 3] == " = ";
    EqualsAt(s, |key|);
  }

  lemma TrimSolid(s: string)
    requires s != [] && !Blank(s[0]) && !Blank(s[|s| - 1])
    ensures Trim(s) == s && Trim(" " + s) == s
  {
    assert (" " + s)[1..] == s;
    assert TrimLeft(" " + s) == TrimLeft(s) == s;
  }

  lemma SettingSolid(key: string, value: string)
    requires PlainKey(key)
    ensures var s := PrintSetting(key, value);
      s != "" && Trim(s) == s && Trim(" " + s) == s
  {
    var s := PrintSetting(key, value);
    assert PlainChar(key[0]) && s[0] == key[0] && s[|s| - 1] == APOSTROPHE;
    TrimSolid(s);
  }

  lemma SettingRead(out: map<string, string>, key: string, value: string)
    requires PlainKey(key)
    ensures AddSetting(out, PrintSetting(key, value)) == out[key := value]
  {
    var s, q := PrintSetting(key, value), Quoted(value, APOSTROPHE);
    PlainEquals(key, q);
    assert s[..|key|] == key && s[|key| + 3..] == q;
    KeyAndValueSolid(key, value);
    UnquoteQuoted(value, APOSTROPHE);
    AddAt(out, s, |key|);
  }

  lemma KeyAndValueSolid(key: string, value: string)
    requires PlainKey(key)
    ensures Trim(key) == key && Trim(Quoted(value, APOSTROPHE)) == Quoted(value, APOSTROPHE)
  {
    assert PlainChar(key[0]) && PlainChar(key[|key| - 1]);
    TrimSolid(key);
    TrimSolid(Quoted(value, APOSTROPHE));
  }

  lemma AddAt(out: map<string, string>, s: string, i: nat)
    requires Equals(s) == i
    ensures AddSetting(out, s) == out[Trim(s[..i]) := Unquote(Trim(s[i + 3..]), APOSTROPHE)]
  {
  }

  function Table(pairs: seq<(string, string)>): map<string, string> {
    if pairs == [] then map[] else Table(pairs[..|pairs| - 1])[pairs[|pairs| - 1].0 := pairs[|pairs| - 1].1]
  }

  /** Parts of a printed line: one setting each. */
  function Printed(pairs: seq<(string, string)>): seq<string> {
    if pairs == [] then [] else [PrintSetting(pairs[0].0, pairs[0].1)] + Printed(pairs[1..])
  }

  lemma NextPart(rest: string, part: string)
    ensures Parts(", " + rest, part, TOP) == [Trim(part)] + Parts(rest, " ", TOP)
  {
    assert (", " + rest)[1..] == " " + rest && (" " + rest)[1..] == rest && "" + [' '] == " ";
  }

  /** One printed setting is one part. */
  lemma SettingIsPart(key: string, value: string, rest: string, part: string)
    requires PlainKey(key) && (part == "" || part == " ")
    ensures Parts(PrintSetting(key, value), part, TOP) == [PrintSetting(key, value)]
    ensures Parts(PrintSetting(key, value) + ", " + rest, part, TOP)
         == [PrintSetting(key, value)] + Parts(rest, " ", TOP)
  {
    var s := PrintSetting(key, value);
    SettingSolid(key, value);
    assert "" + s == s && s + "" == s;
    SettingPassed(key, value, "", part);
    SettingPassed(key, value, ", " + rest, part);
    assert s + ", " + rest == s + (", " + rest);
    NextPart(rest, part + s);
  }

  lemma {:induction false} PrintedParts(pairs: seq<(string, string)>, part: string)
    requires forall i :: 0 <= i < |pairs| ==> PlainKey(pairs[i].0)
    requires part == "" || (part == " " && pairs != [])
    ensures Parts(PrintSettings(pairs), part, TOP) == Printed(pairs)
  {
    if pairs != [] {
      SettingIsPart(pairs[0].0, pairs[0].1, PrintSettings(pairs[1..]), part);
      if |pairs| == 1 {
        assert Printed(pairs[1..]) == [];
      } else {
        PrintedParts(pairs[1..], " ");
      }
    }
  }

  lemma {:induction false} PrintedRead(pairs: seq<(string, string)>)
    requires forall i :: 0 <= i < |pairs| ==> PlainKey(pairs[i].0)
    ensures Settings(Printed(pairs)) == Table(pairs)
  {
    if pairs != [] {
      var front, last := pairs[..|pairs| - 1], pairs[|pairs| - 1];
      PrintedLast(pairs);
      PrintedRead(front);
      SettingRead(Table(front), last.0, last.1);
    }
  }

  lemma {:induction false} PrintedLast(pairs: seq<(string, string)>)
    requires pairs != []
    ensures Printed(pairs) == Printed(pairs[..|pairs| - 1]) + [PrintSetting(pairs[|pairs| - 1].0, pairs[|pairs| - 1].1)]
  {
    if |pairs| > 1 {
      PrintedLast(pairs[1..]);
      assert pairs[1..][..|pairs| - 2] == pairs[..|pairs| - 1][1..];
    }
  }

  /** Settings come back as printed, whatever commas, brackets and quotes the values hold. */
  lemma SettingsRoundTrip(pairs: seq<(string, string)>)
    requires forall i :: 0 <= i < |pairs| ==> PlainKey(pairs[i].0)
    ensures Settings(Parts(PrintSettings(pairs), "", TOP)) == Table(pairs)
  {
    PrintedParts(pairs, "");
    PrintedRead(pairs);
  }

  // ----- the scanners as they run

  method SplitTopLevel(s: string) returns (out: seq<string>)
    ensures out == Parts(s, "", TOP)
  {
    out := [];
    var depth, quote, start := 0, NO_QUOTE, 0;
    for i := 0 to |s|
      invariant start <= i
      invariant out + Parts(s[i..], s[start..i], Nesting(depth, quote)) == Parts(s, "", TOP)
    {
      var c := s[i];
      assert s[i..][0] == c && s[i..][1..] == s[i + 1..] && s[start..i] + [c] == s[start..i + 1];
      if quote != NO_QUOTE {
        if c == quote {
          quote := NO_QUOTE;
        }
      } else if c == APOSTROPHE || c == QUOTE {
        quote := c;
      } else if c == '(' || c == '[' {
        depth := depth + 1;
      } else if c == ')' || c == ']' {
        depth := depth - 1;
      } else if c == ',' && depth == 0 {
        ghost var next := Parts(s[i + 1..], "", TOP);
        assert (out + [Trim(s[start..i])]) + next == out + ([Trim(s[start..i])] + next);
        out := out + [Trim(s[start..i])];
        start := i + 1;
        assert s[start..i + 1] == "";
      }
    }
    var rest := Trim(s[start..]);
    assert s[|s|..] == [] && s[start..|s|] == s[start..];
    if rest != "" {
      out := out + [rest];
    }
  }

  method ParseSettings(line: string) returns (out: map<string, string>)
    ensures out == Settings(Parts(line, "", TOP))
  {
    out := map[];
    var parts := SplitTopLevel(line);
    for i := 0 to |parts|
      invariant out == Settings(parts[..i])
    {
      assert parts[..i + 1][..i] == parts[..i];
      var part := parts[i];
      var at := Equals(part);
      if at >= 0 {
        var value := Trim(part[at + 3..]);
        out := out[Trim(part[..at]) := Unquote(value, APOSTROPHE)];
      }
    }
    assert parts[..|parts|] == parts;
  }
}
