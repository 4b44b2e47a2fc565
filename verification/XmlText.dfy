/** Escaping text for XML and undoing it (section 4.6, predefined entities, of XML 1.0). */
module XmlText {
  import opened JsText
  import opened Options

  /** `s.replace(/c/g, entity)` for a single character. */
  function ReplaceChar(s: string, c: char, entity: string): string {
    if s == [] then [] else (if s[0] == c then entity else [s[0]]) + ReplaceChar(s[1..], c, entity)
  }

  /** The five replacements of the source, one after the other. */
  function Xml(value: string): string {
    ReplaceChar(ReplaceChar(ReplaceChar(ReplaceChar(ReplaceChar(value,
      '&', "&amp;"), '<', "&lt;"), '>', "&gt;"), '"', "&quot;"), '\'', "&apos;")
  }

  /** One pass, character by character. */
  function EscapeChar(c: char): string {
    match c
    case '&' => "&amp;"
    case '<' => "&lt;"
    case '>' => "&gt;"
    case '"' => "&quot;"
    case '\'' => "&apos;"
    case _ => [c]
  }

  function Escape(s: string): string {
    if s == [] then [] else EscapeChar(s[0]) + Escape(s[1..])
  }

  lemma {:induction false} ReplaceAppend(a: string, b: string, c: char, entity: string)
    ensures ReplaceChar(a + b, c, entity) == ReplaceChar(a, c, entity) + ReplaceChar(b, c, entity)
    decreases |a|
  {
    if a == [] {
      assert a + b == b;
    } else {
      assert (a + b)[1..] == a[1..] + b;
      ReplaceAppend(a[1..], b, c, entity);
      var first := if a[0] == c then entity else [a[0]];
      assert first + (ReplaceChar(a[1..], c, entity) + ReplaceChar(b, c, entity))
          == (first + ReplaceChar(a[1..], c, entity)) + ReplaceChar(b, c, entity);
    }
  }

  lemma {:induction false} ReplaceAbsent(s: string, c: char, entity: string)
    requires Lacks(s, c)
    ensures ReplaceChar(s, c, entity) == s
    decreases |s|
  {
    if s != [] { ReplaceAbsent(s[1..], c, entity); }
  }

  lemma {:induction false} ReplaceOne(c: char, d: char, entity: string)
    ensures ReplaceChar([c], d, entity) == if c == d then entity else [c]
  {
    assert [c][1..] == [];
    assert entity + [] == entity && [c] + [] == [c];
  }

  lemma {:induction false} XmlAppend(a: string, b: string)
    ensures Xml(a + b) == Xml(a) + Xml(b)
  {
    hide ReplaceChar;
    var a1, b1 := ReplaceChar(a, '&', "&amp;"), ReplaceChar(b, '&', "&amp;");
    ReplaceAppend(a, b, '&', "&amp;");
    var a2, b2 := ReplaceChar(a1, '<', "&lt;"), ReplaceChar(b1, '<', "&lt;");
    ReplaceAppend(a1, b1, '<', "&lt;");
    var a3, b3 := ReplaceChar(a2, '>', "&gt;"), ReplaceChar(b2, '>', "&gt;");
    ReplaceAppend(a2, b2, '>', "&gt;");
    var a4, b4 := ReplaceChar(a3, '"', "&quot;"), ReplaceChar(b3, '"', "&quot;");
    ReplaceAppend(a3, b3, '"', "&quot;");
    ReplaceAppend(a4, b4, '\'', "&apos;");
  }

  lemma {:induction false} XmlOne(c: char)
    ensures Xml([c]) == EscapeChar(c)
  {
    hide ReplaceChar;
    ReplaceOne(c, '&', "&amp;");
    var s1 := ReplaceChar([c], '&', "&amp;");
    if c == '<' { ReplaceOne(c, '<', "&lt;"); } else { ReplaceAbsent(s1, '<', "&lt;"); }
    var s2 := ReplaceChar(s1, '<', "&lt;");
    if c == '>' { ReplaceOne(c, '>', "&gt;"); } else { ReplaceAbsent(s2, '>', "&gt;"); }
    var s3 := ReplaceChar(s2, '>', "&gt;");
    if c == '"' { ReplaceOne(c, '"', "&quot;"); } else { ReplaceAbsent(s3, '"', "&quot;"); }
    var s4 := ReplaceChar(s3, '"', "&quot;");
    if c == '\'' { ReplaceOne(c, '\'', "&apos;"); } else { ReplaceAbsent(s4, '\'', "&apos;"); }
  }

  /** The five replacements in sequence are one replacement per character. */
  lemma {:induction false} XmlIsEscape(s: string)
    ensures Xml(s) == Escape(s)
    decreases |s|
  {
    if s == [] {
      ReplaceAbsent(s, '&', "&amp;");
      ReplaceAbsent(s, '<', "&lt;");
      ReplaceAbsent(s, '>', "&gt;");
      ReplaceAbsent(s, '"', "&quot;");
      ReplaceAbsent(s, '\'', "&apos;");
    } else {
      hide ReplaceChar;
      assert s == [s[0]] + s[1..];
      XmlAppend([s[0]], s[1..]);
      XmlOne(s[0]);
      XmlIsEscape(s[1..]);
    }
  }

  /** The character an entity at the start of the text stands for, and its length. */
  function Entity(s: string): Option<(char, nat)> {
    if "&amp;" <= s then Some(('&', 5))
    else if "&lt;" <= s then Some(('<', 4))
    else if "&gt;" <= s then Some(('>', 4))
    else if "&quot;" <= s then Some(('"', 6))
    else if "&apos;" <= s then Some(('\'', 6))
    else None
  }

  /** Reading character data: an ampersand must start a predefined entity. */
  function Unescape(s: string): Option<string>
    decreases |s|
  {
    if s == [] then Some([])
    else if s[0] != '&' then
      var rest := Unescape(s[1..]);
      if rest.None? then None else Some([s[0]] + rest.value)
    else
      var e := Entity(s);
      if e.None? then None
      else
        var rest := Unescape(s[e.value.1..]);
        if rest.None? then None else Some([e.value.0] + rest.value)
  }

  lemma {:induction false} EntityOf(c: char, rest: string)
    requires EscapeChar(c) != [c]
    ensures Entity(EscapeChar(c) + rest) == Some((c, |EscapeChar(c)|)) && EscapeChar(c)[0] == '&'
  {
    var s := EscapeChar(c) + rest;
    assert s[..|EscapeChar(c)|] == EscapeChar(c);
    assert c == '<' ==> s[1] == 'l';
    assert c == '>' ==> s[1] == 'g';
    assert c == '"' ==> s[1] == 'q';
    assert c == '\'' ==> s[1] == 'a' && s[2] == 'p';
  }

  /** Unescaping undoes escaping, for every text. */
  lemma {:induction false} UnescapeEscape(s: string)
    ensures Unescape(Escape(s)) == Some(s)
    decreases |s|
  {
    if s != [] {
      hide Entity;
      UnescapeEscape(s[1..]);
      var first, rest := EscapeChar(s[0]), Escape(s[1..]);
      assert Escape(s)[|first|..] == rest;
      assert s == [s[0]] + s[1..];
      if first != [s[0]] {
        EntityOf(s[0], rest);
      } else {
        assert s[0] != '&';
      }
    }
  }

  /** Escaped text holds no markup. */
  lemma {:induction false} EscapeHasNoMarkup(s: string)
    ensures Lacks(Escape(s), '<') && Lacks(Escape(s), '>')
    decreases |s|
  {
    if s != [] { EscapeHasNoMarkup(s[1..]); }
  }
}
