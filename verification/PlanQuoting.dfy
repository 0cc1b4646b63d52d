/** Identifiers and settings as the plan text quotes them: scanners, and printing them back. */
module PlanQuoting {
  import opened Common

  // ----- quoting

  /** Every quote character doubled. */
  function Double(s: string, q: char): string {
    if s == [] then [] else (if s[0] == q then [q, q] else [s[0]]) + Double(s[1..], q)
  }

  /** Every pair of quote characters, left to right, replaced by one. */
  function Undouble(s: string, q: char): string {
    if s == [] then []
    else if |s| >= 2 && s[0] == q && s[1] == q then [q] + Undouble(s[2..], q)
    else [s[0]] + Undouble(s[1..], q)
  }

  lemma {:induction false} UndoubleDouble(s: string, q: char)
    ensures Undouble(Double(s, q), q) == s
  {
    if s != [] {
      UndoubleDouble(s[1..], q);
      var rest := Double(s[1..], q);
      if s[0] == q {
        assert Double(s, q)[2..] == rest;
      } else {
        assert Double(s, q)[1..] == rest;
      }
      assert s == [s[0]] + s[1..];
    }
  }

  function Quoted(s: string, q: char): string {
    [q] + Double(s, q) + [q]
  }

  function Unquote(s: string, q: char): string {
    if |s| >= 2 && s[0] == q && s[|s| - 1] == q then Undouble(s[1..|s| - 1], q) else s
  }

  lemma UnquoteQuoted(s: string, q: char)
    ensures Unquote(Quoted(s, q), q) == s
  {
    UndoubleDouble(s, q);
    assert Quoted(s, q)[1..|Quoted(s, q)| - 1] == Double(s, q);
  }

  // ----- identifiers

  const QUOTE := '"'

  /** A name PostgreSQL may print without quotes. */
  predicate Bare(s: string) {
    s != [] && forall i :: 0 <= i < |s| ==> s[i] != QUOTE && s[i] != ' ' && s[i] != '.'
  }

  /** A name and whether it is printed as a delimited identifier. */
  datatype Name = Name(text: string, delimited: bool)

  predicate Printable(n: Name) {
    n.delimited || Bare(n.text)
  }

  function PrintName(n: Name): string {
    if n.delimited then Quoted(n.text, QUOTE) else n.text
  }

  lemma UnquotePrinted(n: Name)
    requires Printable(n)
    ensures Unquote(PrintName(n), QUOTE) == n.text && PrintName(n) != ""
  {
    if n.delimited {
      UnquoteQuoted(n.text, QUOTE);
    }
  }

  function Flush(token: string): seq<string> {
    if token == "" then [] else [token]
  }

  /** The identifiers of s, token being the one under way. */
  function Idents(s: string, token: string, quote: bool): seq<string> {
    if s == [] then Flush(token)
    else if s[0] == QUOTE then Idents(s[1..], token + [s[0]], !quote)
    else if s[0] == ' ' && !quote then Flush(token) + Idents(s[1..], "", quote)
    else Idents(s[1..], token + [s[0]], quote)
  }

  /** Where the first dot outside quotes is, |s| without one. */
  function Dot(s: string, quote: bool): (r: nat)
    ensures r <= |s|
  {
    if s == [] then 0
    else if s[0] == QUOTE then 1 + Dot(s[1..], !quote)
    else if s[0] == '.' && !quote then 0
    else 1 + Dot(s[1..], quote)
  }

  /** A quoted body is passed over whole, whatever it holds. */
  lemma {:induction false} DoubledPassed(x: string, rest: string, token: string)
    ensures Idents(Double(x, QUOTE) + rest, token, true) == Idents(rest, token + Double(x, QUOTE), true)
    ensures Dot(Double(x, QUOTE) + rest, true) == |Double(x, QUOTE)| + Dot(rest, true)
  {
    var body := Double(x, QUOTE);
    if x == [] {
      assert body + rest == rest && token + body == token;
    } else {
      var head := if x[0] == QUOTE then [QUOTE, QUOTE] else [x[0]];
      var tail := Double(x[1..], QUOTE);
      DoubledPassed(x[1..], rest, token + head);
      var s := body + rest;
      assert s == head + (tail + rest);
      assert (token + head) + tail == token + body;
      if x[0] == QUOTE {
        assert s[0] == QUOTE && s[1..] == [QUOTE] + (tail + rest) && s[1..][1..] == tail + rest;
        assert (token + [QUOTE]) + [QUOTE] == token + head;
      } else {
        assert s[1..] == tail + rest;
      }
    }
  }

  lemma {:induction false} BarePassed(x: string, rest: string, token: string)
    requires forall i :: 0 <= i < |x| ==> x[i] != QUOTE && x[i] != ' ' && x[i] != '.'
    ensures Idents(x + rest, token, false) == Idents(rest, token + x, false)
    ensures Dot(x + rest, false) == |x| + Dot(rest, false)
  {
    if x == [] {
      assert x + rest == rest && token + x == token;
    } else {
      BarePassed(x[1..], rest, token + [x[0]]);
      assert (x + rest)[1..] == x[1..] + rest;
      assert (token + [x[0]]) + x[1..] == token + x;
    }
  }

  /** A printed name is one token, and hides its dots. */
  lemma NamePassed(n: Name, rest: string, token: string)
    requires Printable(n)
    ensures Idents(PrintName(n) + rest, token, false) == Idents(rest, token + PrintName(n), false)
    ensures Dot(PrintName(n) + rest, false) == |PrintName(n)| + Dot(rest, false)
  {
    if n.delimited {
      var body := Double(n.text, QUOTE);
      var s := PrintName(n) + rest;
      assert s == [QUOTE] + (body + ([QUOTE] + rest));
      assert s[1..] == body + ([QUOTE] + rest);
      DoubledPassed(n.text, [QUOTE] + rest, token + [QUOTE]);
      assert ([QUOTE] + rest)[1..] == rest;
      assert token + [QUOTE] + body + [QUOTE] == token + PrintName(n);
    } else {
      BarePassed(n.text, rest, token);
    }
  }

  function SplitQualified(name: string): (string, string) {
    var i := Dot(name, false);
    if i < |name| then (Unquote(name[..i], QUOTE), Unquote(name[i + 1..], QUOTE)) else ("", Unquote(name, QUOTE))
  }

  /** Schema, relation and alias; the alias is dropped when it repeats the relation. */
  function OnClause(s: string): (string, string, string) {
    var fields := Idents(s, "", false);
    if fields == [] then ("", "", "")
    else
      var (schema, relation) := SplitQualified(fields[0]);
      var alias := if |fields| > 1 then Unquote(fields[1], QUOTE) else "";
      (schema, relation, if alias != relation then alias else "")
  }

  function PrintQualified(schema: Option<Name>, relation: Name): string {
    (if schema.Some? then PrintName(schema.value) + "." else "") + PrintName(relation)
  }

  function PrintOn(schema: Option<Name>, relation: Name, alias: Option<Name>): string {
    PrintQualified(schema, relation) + (if alias.Some? then " " + PrintName(alias.value) else "")
  }

  lemma QualifiedPassed(schema: Option<Name>, relation: Name, rest: string)
    requires (schema.Some? ==> Printable(schema.value)) && Printable(relation)
    ensures Idents(PrintQualified(schema, relation) + rest, "", false)
         == Idents(rest, PrintQualified(schema, relation), false)
  {
    if schema.Some? {
      var a := PrintName(schema.value);
      var s := PrintQualified(schema, relation) + rest;
      assert s == a + ("." + (PrintName(relation) + rest));
      NamePassed(schema.value, "." + (PrintName(relation) + rest), "");
      assert ("." + (PrintName(relation) + rest))[1..] == PrintName(relation) + rest;
      NamePassed(relation, rest, "" + a + ".");
      assert "" + a + "." + PrintName(relation) == PrintQualified(schema, relation);
    } else {
      NamePassed(relation, rest, "");
      assert PrintQualified(schema, relation) == PrintName(relation) == "" + PrintName(relation);
    }
  }

  lemma QualifiedSplit(schema: Name, relation: Name)
    requires Printable(schema) && Printable(relation)
    ensures SplitQualified(PrintName(schema) + "." + PrintName(relation)) == (schema.text, relation.text)
  {
    UnquotePrinted(relation);
    UnquotePrinted(schema);
    NamePassed(schema, "." + PrintName(relation), "");
    SplitAtFirstDot(PrintName(schema), PrintName(relation));
  }

  lemma SplitAtFirstDot(a: string, r: string)
    requires Dot(a + ("." + r), false) == |a| + Dot("." + r, false)
    ensures SplitQualified(a + "." + r) == (Unquote(a, QUOTE), Unquote(r, QUOTE))
  {
    var s := a + "." + r;
    DotFirst(r);
    assert s == a + ("." + r);
    assert s[..|a|] == a && s[|a| + 1..] == r;
    SplitAt(s, |a|);
  }

  lemma DotFirst(r: string)
    ensures Dot("." + r, false) == 0
  {
  }

  lemma SplitAt(s: string, i: nat)
    requires i < |s| && Dot(s, false) == i
    ensures SplitQualified(s) == (Unquote(s[..i], QUOTE), Unquote(s[i + 1..], QUOTE))
  {
  }

  lemma UnqualifiedSplit(relation: Name)
    requires Printable(relation)
    ensures SplitQualified(PrintName(relation)) == ("", relation.text)
  {
    UnquotePrinted(relation);
    NamePassed(relation, "", "");
    assert PrintName(relation) + "" == PrintName(relation);
  }

  lemma PrintedIdents(schema: Option<Name>, relation: Name, alias: Option<Name>)
    requires (schema.Some? ==> Printable(schema.value)) && Printable(relation)
    requires alias.Some? ==> Printable(alias.value)
    ensures Idents(PrintOn(schema, relation, alias), "", false) ==
      [PrintQualified(schema, relation)] + (if alias.Some? then [PrintName(alias.value)] else [])
  {
    var q := PrintQualified(schema, relation);
    UnquotePrinted(relation);
    var rest := if alias.Some? then " " + PrintName(alias.value) else "";
    QualifiedPassed(schema, relation, rest);
    if alias.Some? {
      var a := PrintName(alias.value);
      UnquotePrinted(alias.value);
      assert rest[1..] == a && a + "" == a && "" + a == a;
      NamePassed(alias.value, "", "");
    }
  }

  /** Names come back whatever dots, spaces and quotes they hold, however they are quoted. */
  lemma OnClauseRoundTrip(schema: Option<Name>, relation: Name, alias: Option<Name>)
    requires (schema.Some? ==> Printable(schema.value)) && Printable(relation)
    requires alias.Some? ==> Printable(alias.value)
    ensures OnClause(PrintOn(schema, relation, alias)) ==
      (if schema.Some? then schema.value.text else "", relation.text,
       if alias.Some? && alias.value.text != relation.text then alias.value.text else "")
  {
    PrintedIdents(schema, relation, alias);
    if schema.Some? {
      QualifiedSplit(schema.value, relation);
    } else {
      UnqualifiedSplit(relation);
      assert PrintQualified(schema, relation) == PrintName(relation);
    }
    if alias.Some? {
      UnquotePrinted(alias.value);
    }
  }

  // ----- the scanners as they run

  method SplitIdents(s: string) returns (out: seq<string>)
    ensures out == Idents(s, "", false)
  {
    out := [];
    var token, quote := "", false;
    for i := 0 to |s|
      invariant out + Idents(s[i..], token, quote) == Idents(s, "", false)
    {
      var c := s[i];
      assert s[i..][0] == c && s[i..][1..] == s[i + 1..];
      if c == QUOTE {
        quote := !quote;
        token := token + [c];
      } else if c == ' ' && !quote {
        if token != "" {
          out := out + [token];
          token := "";
        }
      } else {
        token := token + [c];
      }
    }
    assert s[|s|..] == [];
    if token != "" {
      out := out + [token];
    }
  }

  method SplitAtDot(name: string) returns (schema: string, relation: string)
    ensures (schema, relation) == SplitQualified(name)
  {
    var quote := false;
    for i := 0 to |name|
      invariant i + Dot(name[i..], quote) == Dot(name, false)
    {
      assert name[i..][0] == name[i] && name[i..][1..] == name[i + 1..];
      if name[i] == QUOTE {
        quote := !quote;
      } else if name[i] == '.' && !quote {
        return Unquote(name[..i], QUOTE), Unquote(name[i + 1..], QUOTE);
      }
    }
    return "", Unquote(name, QUOTE);
  }

  method ParseOnClause(s: string) returns (schema: string, relation: string, alias: string)
    ensures (schema, relation, alias) == OnClause(s)
  {
    schema, relation, alias := "", "", "";
    var fields := SplitIdents(s);
    if |fields| == 0 {
      return;
    }
    schema, relation := SplitAtDot(fields[0]);
    if |fields| > 1 {
      var name := Unquote(fields[1], QUOTE);
      if name != relation {
        alias := name;
      }
    }
  }
}
