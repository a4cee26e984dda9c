/**
  Several texts packed into one, so that each can be had back: one line per
  text, newlines and backslashes in it escaped.
 */
module Packs {
  import opened Text

  function QuoteChar(c: char): string {
    if c == '\n' then "\\n" else if c == '\\' then "\\\\" else [c]
  }

  function Quote(s: string): string {
    if s == "" then "" else QuoteChar(s[0]) + Quote(s[1..])
  }

  function Unquote(s: string): string {
    if s == "" then ""
    else if s[0] == '\\' && |s| >= 2 then [if s[1] == 'n' then '\n' else s[1]] + Unquote(s[2..])
    else [s[0]] + Unquote(s[1..])
  }

  function Pack(fields: seq<string>): string
    requires fields != []
  {
    Join(Quotes(fields), "\n")
  }

  function Quotes(fields: seq<string>): (r: seq<string>)
    ensures |r| == |fields| && forall i | 0 <= i < |r| :: r[i] == Quote(fields[i])
  {
    if fields == [] then [] else [Quote(fields[0])] + Quotes(fields[1..])
  }

  function Unpack(text: string): seq<string> {
    Unquotes(Split(text, "\n"))
  }

  function Unquotes(lines: seq<string>): (r: seq<string>)
    ensures |r| == |lines| && forall i | 0 <= i < |r| :: r[i] == Unquote(lines[i])
  {
    if lines == [] then [] else [Unquote(lines[0])] + Unquotes(lines[1..])
  }

  lemma {:induction false} QuoteIsLine(s: string)
    ensures '\n' !in Quote(s)
  {
    if s != "" {
      QuoteIsLine(s[1..]);
      assert '\n' !in QuoteChar(s[0]);
    }
  }

  lemma {:induction false} UnquoteBack(s: string)
    ensures Unquote(Quote(s)) == s
  {
    if s != "" {
      UnquoteBack(s[1..]);
      var q, rest := QuoteChar(s[0]), Quote(s[1..]);
      assert Quote(s) == q + rest;
      if |q| == 2 {
        assert (q + rest)[2..] == rest && (q + rest)[0] == '\\' && (q + rest)[1] == q[1];
      } else {
        assert (q + rest)[1..] == rest && (q + rest)[0] == s[0] != '\\';
      }
      assert [s[0]] + s[1..] == s;
    }
  }

  /** What was packed can be had back. */
  lemma UnpackBack(fields: seq<string>)
    requires fields != []
    ensures Unpack(Pack(fields)) == fields
  {
    var lines := Quotes(fields);
    forall i | 0 <= i < |lines|
      ensures '\n' !in lines[i] && Unquote(lines[i]) == fields[i]
    {
      QuoteIsLine(fields[i]);
      UnquoteBack(fields[i]);
    }
    SplitJoin(lines, '\n');
  }
}
