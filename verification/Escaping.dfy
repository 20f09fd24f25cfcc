/**
  Service names inside quoted labels of log and metric queries: two successive replacements, and the
  reader of quoted labels that undoes them.
 */
module Escaping {
  import opened Base

  /** Every occurrence of c is replaced. */
  function Replace(s: string, c: char, text: string): string {
    if s == "" then "" else (if s[0] == c then text else [s[0]]) + Replace(s[1..], c, text)
  }

  function Escape(name: string): string {
    Replace(Replace(name, '\\', "\\\\"), '"', "\\\"")
  }

  /** One character on its own. */
  function EscapeChar(c: char): string {
    if c == '\\' then "\\\\" else if c == '"' then "\\\"" else [c]
  }

  function EscapeEach(name: string): string {
    if name == "" then "" else EscapeChar(name[0]) + EscapeEach(name[1..])
  }

  lemma {:induction false} ReplaceSplits(a: string, b: string, c: char, text: string)
    ensures Replace(a + b, c, text) == Replace(a, c, text) + Replace(b, c, text)
  {
    if a == "" {
      assert a + b == b;
    } else {
      assert (a + b)[1..] == a[1..] + b;
      ReplaceSplits(a[1..], b, c, text);
    }
  }

  /** The second replacement never touches what the first one wrote. */
  lemma {:induction false} EscapeIsPerCharacter(name: string)
    ensures Escape(name) == EscapeEach(name)
  {
    if name != "" {
      var head := if name[0] == '\\' then "\\\\" else [name[0]];
      EscapeIsPerCharacter(name[1..]);
      ReplaceSplits(head, Replace(name[1..], '\\', "\\\\"), '"', "\\\"");
      assert Replace(head, '"', "\\\"") == EscapeChar(name[0]) by {
        assert head[1..] == if name[0] == '\\' then "\\" else "";
        if name[0] == '\\' { assert head[1..][1..] == ""; }
      }
    }
  }

  /******* Reading a label *******/

  /** Reads a label up to its closing quote; a line break or an unknown escape is an error. */
  function ReadLabel(s: string): Option<(string, string)> {
    if s == "" || s[0] == '\n' then None
    else if s[0] == '"' then Some(("", s[1..]))
    else if s[0] == '\\' then
      if |s| >= 2 && (s[1] == '\\' || s[1] == '"') then Prepend(s[1], ReadLabel(s[2..])) else None
    else Prepend(s[0], ReadLabel(s[1..]))
  }

  function Prepend(c: char, r: Option<(string, string)>): Option<(string, string)> {
    if r.None? then None else Some(([c] + r.value.0, r.value.1))
  }

  /** The reader gets back the name and stops at the intended quote, exactly for names without line breaks. */
  lemma {:induction false} ReadLabelInvertsEscape(name: string, rest: string)
    ensures ReadLabel(Escape(name) + "\"" + rest) == if '\n' in name then None else Some((name, rest))
  {
    EscapeIsPerCharacter(name);
    assert Escape(name) + "\"" + rest == EscapeEach(name) + ("\"" + rest);
    ReadLabelInvertsEach(name, rest);
  }

  lemma {:induction false} ReadLabelInvertsEach(name: string, rest: string)
    ensures ReadLabel(EscapeEach(name) + ("\"" + rest)) == if '\n' in name then None else Some((name, rest))
  {
    var close := "\"" + rest;
    if name == "" {
      assert EscapeEach(name) + close == close;
    } else {
      var c, tail := name[0], EscapeEach(name[1..]) + close;
      ReadLabelInvertsEach(name[1..], rest);
      assert EscapeEach(name) + close == EscapeChar(c) + tail;
      assert name == [c] + name[1..];
      if c == '\\' || c == '"' {
        assert (EscapeChar(c) + tail)[2..] == tail;
      } else {
        assert (EscapeChar(c) + tail)[1..] == tail;
      }
    }
  }

  /******* Queries *******/

  const LOG_HEAD := "{service_name=\""
  const LOG_TAIL := "} |~ \"(?i)(error|timeout|failed|exception)\""

  function CheckoutLogQuery(name: string): string {
    LOG_HEAD + (Escape(name) + "\"" + LOG_TAIL)
  }

  const RATE_HEAD := "sum(rate(http_requests_total{service_name=\""
  const RATE_MIDDLE := ",status=~\"5..\"}[5m])) / clamp_min(sum(rate(http_requests_total{service_name=\""
  const RATE_TAIL := "}[5m])), 0.001)"

  function CheckoutErrorRateQuery(name: string): string {
    RATE_HEAD + (Escape(name) + "\"" + (RATE_MIDDLE + (Escape(name) + "\"" + RATE_TAIL)))
  }

  /** The rest of s after the expected text. */
  function Expect(text: string, s: string): Option<string> {
    if text <= s then Some(s[|text|..]) else None
  }

  /** The label after the expected text, and what follows its closing quote. */
  function LabelAfter(text: string, s: string): Option<(string, string)> {
    var rest := Expect(text, s);
    if rest.None? then None else ReadLabel(rest.value)
  }

  lemma LabelAfterInverts(text: string, name: string, rest: string)
    ensures LabelAfter(text, text + (Escape(name) + "\"" + rest)) == if '\n' in name then None else Some((name, rest))
  {
    var s := Escape(name) + "\"" + rest;
    assert (text + s)[|text|..] == s;
    ReadLabelInvertsEscape(name, rest);
  }

  /** The log query selects exactly the named service, and the filter behind it is untouched. */
  lemma LogQueryNamesTheService(name: string)
    ensures LabelAfter(LOG_HEAD, CheckoutLogQuery(name)) == if '\n' in name then None else Some((name, LOG_TAIL))
  {
    LabelAfterInverts(LOG_HEAD, name, LOG_TAIL);
  }

  /** Both selectors of the error rate name the service, or a line break spoils the first one already. */
  lemma RateQueryNamesTheServiceTwice(name: string)
    ensures var first := LabelAfter(RATE_HEAD, CheckoutErrorRateQuery(name));
      if '\n' in name then first.None?
      else
        first.Some? && first.value.0 == name &&
        LabelAfter(RATE_MIDDLE, first.value.1) == Some((name, RATE_TAIL))
  {
    LabelAfterInverts(RATE_MIDDLE, name, RATE_TAIL);
    LabelAfterInverts(RATE_HEAD, name, RATE_MIDDLE + (Escape(name) + "\"" + RATE_TAIL));
  }

  /** Escaped names are never confused, with or without line breaks. */
  lemma {:induction false} EscapeIsInjective(a: string, b: string)
    requires Escape(a) == Escape(b)
    ensures a == b
  {
    EscapeIsPerCharacter(a);
    EscapeIsPerCharacter(b);
    if a != "" && b != "" {
      EscapeIsPerCharacter(a[1..]);
      EscapeIsPerCharacter(b[1..]);
      assert EscapeEach(a)[0] == EscapeChar(a[0])[0] && EscapeEach(b)[0] == EscapeChar(b[0])[0];
      assert a[0] == b[0] by {
        if a[0] == '\\' || a[0] == '"' { assert EscapeEach(a)[1] == a[0]; }
        if b[0] == '\\' || b[0] == '"' { assert EscapeEach(b)[1] == b[0]; }
      }
      assert EscapeEach(a)[|EscapeChar(a[0])|..] == EscapeEach(a[1..]);
      assert EscapeEach(b)[|EscapeChar(b[0])|..] == EscapeEach(b[1..]);
      EscapeIsInjective(a[1..], b[1..]);
      assert a == [a[0]] + a[1..] && b == [b[0]] + b[1..];
    }
  }
}
