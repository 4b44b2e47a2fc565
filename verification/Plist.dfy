/**
 The launchd property list of the background service: how it is printed, and a reader of
 property lists that gets the launch specification back.
 */
module Plist {
  import opened JsText
  import opened Options
  import opened XmlText

  datatype Value =
    | Text(text: string)
    | Integer(digits: string)
    | True
    | Items(items: seq<Value>)
    | Entries(entries: seq<Entry>)

  datatype Entry = Entry(key: string, value: Value)

  // ---------------------------------------------------------------- printing

  function Tag(name: string): string {
    ['<'] + name + ['>']
  }

  /** One line holding an element with text in it. */
  function Leaf(indent: string, name: string, close: string, text: string): string {
    indent + (Tag(name) + (Xml(text) + (Tag(close) + ['\n'])))
  }

  function Line(indent: string, name: string): string {
    indent + (Tag(name) + ['\n'])
  }

  function Deeper(indent: string): string {
    indent + [' ', ' ']
  }

  /** Lines of a block; an empty block still leaves its line feed. */
  function Block(lines: string): string {
    if lines == [] then ['\n'] else lines
  }

  function PrintValue(indent: string, v: Value): string
    decreases v, 0
  {
    match v
    case Text(s) => Leaf(indent, "string", "/string", s)
    case Integer(s) => Leaf(indent, "integer", "/integer", s)
    case True => Line(indent, "true/")
    case Items(items) =>
      Line(indent, "array") + (Block(PrintItems(Deeper(indent), items)) + Line(indent, "/array"))
    case Entries(entries) =>
      Line(indent, "dict") + (Block(PrintEntries(Deeper(indent), entries)) + Line(indent, "/dict"))
  }

  function PrintItems(indent: string, items: seq<Value>): string
    decreases items, 1
  {
    if items == [] then [] else PrintValue(indent, items[0]) + PrintItems(indent, items[1..])
  }

  function PrintEntries(indent: string, entries: seq<Entry>): string
    decreases entries, 1
  {
    if entries == [] then []
    else
      Leaf(indent, "key", "/key", entries[0].key)
      + (PrintValue(indent, entries[0].value) + PrintEntries(indent, entries[1..]))
  }

  /** Each kind of value as the text has it: tags on lines of their own, two spaces for each depth. */
  lemma {:induction false} TextShape(indent: string, text: string)
    ensures PrintValue(indent, Text(text)) == indent + ("<string>" + (Xml(text) + "</string>\n"))
    ensures PrintValue(indent, Integer(text)) == indent + ("<integer>" + (Xml(text) + "</integer>\n"))
  {
    hide Xml;
    TagShape("string", "<string>");
    TagShape("integer", "<integer>");
    TagShape("/string", "</string>");
    TagShape("/integer", "</integer>");
    assert "</string>" + ['\n'] == "</string>\n" && "</integer>" + ['\n'] == "</integer>\n";
    hide Tag;
  }

  lemma {:induction false} TagShape(name: string, tag: string)
    requires tag == "<" + name + ">"
    ensures Tag(name) == tag
  {
  }

  lemma {:induction false} LineShape(indent: string, name: string, line: string)
    requires line == "<" + name + ">\n"
    ensures Line(indent, name) == indent + line
  {
    assert Tag(name) + ['\n'] == line;
  }

  lemma {:induction false} BlockShape(indent: string, first: Value, entry: Entry)
    ensures PrintValue(indent, True) == indent + "<true/>\n"
    ensures PrintValue(indent, Items([first]))
         == (indent + "<array>\n") + (PrintValue(indent + "  ", first) + (indent + "</array>\n"))
    ensures PrintValue(indent, Entries([entry]))
         == (indent + "<dict>\n")
          + (Leaf(indent + "  ", "key", "/key", entry.key) + PrintValue(indent + "  ", entry.value) + (indent + "</dict>\n"))
  {
    LineShape(indent, "true/", "<true/>\n");
    LineShape(indent, "array", "<array>\n");
    LineShape(indent, "/array", "</array>\n");
    LineShape(indent, "dict", "<dict>\n");
    LineShape(indent, "/dict", "</dict>\n");
    assert Deeper(indent) == indent + "  ";
    hide Line, Leaf, Deeper;
    OneItem(indent + "  ", first);
    OneEntry(indent + "  ", entry);
  }

  lemma {:induction false} OneItem(indent: string, first: Value)
    ensures Block(PrintItems(indent, [first])) == PrintValue(indent, first) != []
  {
    assert [first][1..] == [];
    PrintsSomething(indent, first);
    assert PrintValue(indent, first) + [] == PrintValue(indent, first);
  }

  lemma {:induction false} OneEntry(indent: string, entry: Entry)
    ensures Block(PrintEntries(indent, [entry]))
         == Leaf(indent, "key", "/key", entry.key) + PrintValue(indent, entry.value)
  {
    assert [entry][1..] == [];
    PrintsSomething(indent, entry.value);
    assert PrintValue(indent, entry.value) + [] == PrintValue(indent, entry.value);
    hide Leaf;
  }

  lemma {:induction false} PrintsSomething(indent: string, v: Value)
    ensures PrintValue(indent, v) != []
  {
  }

  // ---------------------------------------------------------------- reading

  datatype Got<T> = Nothing | Got(value: T, rest: string)

  /** The text before the next tag, and the tag's name. */
  datatype Markup = Markup(text: string, tag: string)

  function NextTag(s: string): (r: Got<Markup>)
    ensures r.Got? ==> |r.rest| < |s|
  {
    var open := IndexOf(s, '<');
    if open < 0 then Nothing
    else
      var after := s[open + 1..];
      var close := IndexOf(after, '>');
      if close < 0 then Nothing else Got(Markup(s[..open], after[..close]), after[close + 1..])
  }

  predicate Blank(s: string) {
    forall i | 0 <= i < |s| :: s[i] == ' ' || s[i] == '\n' || s[i] == '\t' || s[i] == '\r'
  }

  /** Character data up to the closing tag `close`. */
  function ReadText(s: string, close: string): (r: Got<string>)
    ensures r.Got? ==> |r.rest| < |s|
  {
    var next := NextTag(s);
    if next.Nothing? || next.value.tag != close then Nothing
    else
      var text := Unescape(next.value.text);
      if text.None? then Nothing else Got(text.value, next.rest)
  }

  function ReadValue(s: string): (r: Got<Value>)
    ensures r.Got? ==> |r.rest| < |s|
    decreases |s|, 0
  {
    var next := NextTag(s);
    if next.Nothing? || !Blank(next.value.text) then Nothing
    else
      match next.value.tag
      case "string" =>
        var text := ReadText(next.rest, "/string");
        if text.Nothing? then Nothing else Got(Text(text.value), text.rest)
      case "integer" =>
        var text := ReadText(next.rest, "/integer");
        if text.Nothing? then Nothing else Got(Integer(text.value), text.rest)
      case "true/" => Got(True, next.rest)
      case "array" =>
        var items := ReadItems(next.rest);
        if items.Nothing? then Nothing else Got(Items(items.value), items.rest)
      case "dict" =>
        var entries := ReadEntries(next.rest);
        if entries.Nothing? then Nothing else Got(Entries(entries.value), entries.rest)
      case _ => Nothing
  }

  function ReadItems(s: string): (r: Got<seq<Value>>)
    ensures r.Got? ==> |r.rest| < |s|
    decreases |s|, 1
  {
    var next := NextTag(s);
    if next.Got? && Blank(next.value.text) && next.value.tag == "/array" then Got([], next.rest)
    else
      var first := ReadValue(s);
      if first.Nothing? then Nothing
      else
        var later := ReadItems(first.rest);
        if later.Nothing? then Nothing else Got([first.value] + later.value, later.rest)
  }

  function ReadEntries(s: string): (r: Got<seq<Entry>>)
    ensures r.Got? ==> |r.rest| < |s|
    decreases |s|, 1
  {
    var next := NextTag(s);
    if next.Nothing? || !Blank(next.value.text) then Nothing
    else if next.value.tag == "/dict" then Got([], next.rest)
    else if next.value.tag != "key" then Nothing
    else
      var key := ReadText(next.rest, "/key");
      if key.Nothing? then Nothing
      else
        var value := ReadValue(key.rest);
        if value.Nothing? then Nothing
        else
          var later := ReadEntries(value.rest);
          if later.Nothing? then Nothing else Got([Entry(key.value, value.value)] + later.value, later.rest)
  }

  // ---------------------------------------------------------------- the round trip

  lemma {:induction false} NextTagOf(t: string, name: string, rest: string)
    requires Lacks(t, '<') && Lacks(name, '>')
    ensures NextTag(t + (Tag(name) + rest)) == Got(Markup(t, name), rest)
  {
    hide IndexOf;
    var s := t + (Tag(name) + rest);
    var n := |t|;
    assert s[n] == '<' && forall k | 0 <= k < n :: s[k] == t[k];
    assert IndexOf(s, '<') == n;
    var after := s[n + 1..];
    assert after == name + ['>'] + rest;
    var m := |name|;
    assert after[m] == '>' && forall k | 0 <= k < m :: after[k] == name[k];
    assert IndexOf(after, '>') == m;
    assert s[..n] == t && after[..m] == name && after[m + 1..] == rest;
  }

  lemma {:induction false} ReadTextOf(text: string, close: string, rest: string)
    requires Lacks(close, '>')
    ensures ReadText(Xml(text) + (Tag(close) + rest), close) == Got(text, rest)
  {
    hide Xml, Unescape, NextTag;
    XmlIsEscape(text);
    EscapeHasNoMarkup(text);
    UnescapeEscape(text);
    NextTagOf(Xml(text), close, rest);
  }

  lemma {:induction false} BlankAppend(t: string, indent: string)
    requires Blank(t) && Blank(indent)
    ensures Blank(t + indent) && Lacks(t + indent, '<')
  {
  }

  /** A leaf after blank text: its opening tag, then its text. */
  lemma {:induction false} LeafOpens(t: string, indent: string, name: string, close: string, text: string, rest: string)
    requires Blank(t) && Blank(indent) && Lacks(name, '>') && Lacks(close, '>')
    ensures var next := NextTag(t + (Leaf(indent, name, close, text) + rest));
            && next.Got? && Blank(next.value.text) && next.value.tag == name
            && ReadText(next.rest, close) == Got(text, ['\n'] + rest)
  {
    hide Xml, NextTag, ReadText, Tag;
    var inner := Xml(text) + (Tag(close) + (['\n'] + rest));
    assert Xml(text) + (Tag(close) + ['\n']) + rest == inner;
    assert t + (Leaf(indent, name, close, text) + rest) == (t + indent) + (Tag(name) + inner);
    BlankAppend(t, indent);
    NextTagOf(t + indent, name, inner);
    ReadTextOf(text, close, ['\n'] + rest);
  }

  lemma {:induction false} LineOpens(t: string, indent: string, name: string, rest: string)
    requires Blank(t) && Blank(indent) && Lacks(name, '>')
    ensures NextTag(t + (Line(indent, name) + rest)) == Got(Markup(t + indent, name), ['\n'] + rest)
    ensures Blank(t + indent)
  {
    hide NextTag, Tag;
    assert t + (Line(indent, name) + rest) == (t + indent) + (Tag(name) + (['\n'] + rest));
    BlankAppend(t, indent);
    NextTagOf(t + indent, name, ['\n'] + rest);
  }

  /** The names printed as tags hold no closing bracket, and no value starts with a closing tag. */
  function OpeningTag(v: Value): string {
    match v
    case Text(_) => "string"
    case Integer(_) => "integer"
    case True => "true/"
    case Items(_) => "array"
    case Entries(_) => "dict"
  }

  lemma {:induction false} ValueOpens(t: string, indent: string, v: Value, rest: string)
    requires Blank(t) && Blank(indent)
    ensures var next := NextTag(t + (PrintValue(indent, v) + rest));
            next.Got? && Blank(next.value.text) && next.value.tag == OpeningTag(v) != "/array"
  {
    hide NextTag, Leaf, Line, PrintItems, PrintEntries, ReadText;
    match v
    case Text(s) => LeafOpens(t, indent, "string", "/string", s, rest);
    case Integer(s) => LeafOpens(t, indent, "integer", "/integer", s, rest);
    case True => LineOpens(t, indent, "true/", rest);
    case Items(items) =>
      var more := Block(PrintItems(Deeper(indent), items)) + Line(indent, "/array");
      assert (Line(indent, "array") + more) + rest == Line(indent, "array") + (more + rest);
      LineOpens(t, indent, "array", more + rest);
    case Entries(entries) =>
      var more := Block(PrintEntries(Deeper(indent), entries)) + Line(indent, "/dict");
      assert (Line(indent, "dict") + more) + rest == Line(indent, "dict") + (more + rest);
      LineOpens(t, indent, "dict", more + rest);
  }

  /** Reading a printed value, whatever stands before and after it, gives the value. */
  lemma {:induction false} ReadPrintedValue(t: string, indent: string, v: Value, rest: string)
    requires Blank(t) && Blank(indent)
    ensures ReadValue(t + (PrintValue(indent, v) + rest)) == Got(v, ['\n'] + rest)
    decreases v, 0
  {
    hide NextTag, Leaf, Line, PrintItems, PrintEntries, ReadText, ReadItems, ReadEntries;
    match v
    case Text(s) => LeafOpens(t, indent, "string", "/string", s, rest);
    case Integer(s) => LeafOpens(t, indent, "integer", "/integer", s, rest);
    case True => LineOpens(t, indent, "true/", rest);
    case Items(items) =>
      var lines := PrintItems(Deeper(indent), items);
      var more := Block(lines) + Line(indent, "/array");
      assert (Line(indent, "array") + more) + rest == Line(indent, "array") + (more + rest);
      LineOpens(t, indent, "array", more + rest);
      ReadBlockOfItems(indent, items, rest);
    case Entries(entries) =>
      var lines := PrintEntries(Deeper(indent), entries);
      var more := Block(lines) + Line(indent, "/dict");
      assert (Line(indent, "dict") + more) + rest == Line(indent, "dict") + (more + rest);
      LineOpens(t, indent, "dict", more + rest);
      ReadBlockOfEntries(indent, entries, rest);
  }

  lemma {:induction false} BlankDeeper(indent: string)
    requires Blank(indent)
    ensures Blank(Deeper(indent)) && Blank(['\n'])
  {
  }

  lemma {:induction false} ReadBlockOfItems(indent: string, items: seq<Value>, rest: string)
    requires Blank(indent)
    ensures ReadItems(['\n'] + ((Block(PrintItems(Deeper(indent), items)) + Line(indent, "/array")) + rest))
         == Got(items, ['\n'] + rest)
    decreases items, 2
  {
    hide ReadItems, Line, PrintItems, Deeper;
    BlankDeeper(indent);
    var lines, close := PrintItems(Deeper(indent), items), Line(indent, "/array");
    if lines == [] {
      assert ['\n'] + ((['\n'] + close) + rest) == ['\n', '\n'] + (lines + (close + rest));
      ReadPrintedItems(['\n', '\n'], Deeper(indent), indent, items, rest);
    } else {
      assert (lines + close) + rest == lines + (close + rest);
      ReadPrintedItems(['\n'], Deeper(indent), indent, items, rest);
    }
  }

  lemma {:induction false} ReadPrintedItems(t: string, indent: string, outer: string, items: seq<Value>, rest: string)
    requires Blank(t) && Blank(indent) && Blank(outer)
    ensures ReadItems(t + (PrintItems(indent, items) + (Line(outer, "/array") + rest))) == Got(items, ['\n'] + rest)
    decreases items, 1
  {
    hide NextTag, Line, PrintValue, ReadValue;
    var close := Line(outer, "/array") + rest;
    if items == [] {
      assert [] + close == close;
      LineOpens(t, outer, "/array", rest);
    } else {
      var more := PrintItems(indent, items[1..]) + close;
      assert PrintItems(indent, items) + close == PrintValue(indent, items[0]) + more;
      ValueOpens(t, indent, items[0], more);
      ReadPrintedValue(t, indent, items[0], more);
      BlankDeeper(indent);
      ReadPrintedItems(['\n'], indent, outer, items[1..], rest);
      assert [items[0]] + items[1..] == items;
    }
  }

  lemma {:induction false} ReadBlockOfEntries(indent: string, entries: seq<Entry>, rest: string)
    requires Blank(indent)
    ensures ReadEntries(['\n'] + ((Block(PrintEntries(Deeper(indent), entries)) + Line(indent, "/dict")) + rest))
         == Got(entries, ['\n'] + rest)
    decreases entries, 2
  {
    hide ReadEntries, Line, PrintEntries, Deeper;
    BlankDeeper(indent);
    var lines, close := PrintEntries(Deeper(indent), entries), Line(indent, "/dict");
    if lines == [] {
      assert ['\n'] + ((['\n'] + close) + rest) == ['\n', '\n'] + (lines + (close + rest));
      ReadPrintedEntries(['\n', '\n'], Deeper(indent), indent, entries, rest);
    } else {
      assert (lines + close) + rest == lines + (close + rest);
      ReadPrintedEntries(['\n'], Deeper(indent), indent, entries, rest);
    }
  }

  lemma {:induction false} ReadPrintedEntries(t: string, indent: string, outer: string, entries: seq<Entry>, rest: string)
    requires Blank(t) && Blank(indent) && Blank(outer)
    ensures ReadEntries(t + (PrintEntries(indent, entries) + (Line(outer, "/dict") + rest))) == Got(entries, ['\n'] + rest)
    decreases entries, 1
  {
    hide NextTag, Line, Leaf, PrintValue, ReadValue, ReadText;
    var close := Line(outer, "/dict") + rest;
    if entries == [] {
      assert [] + close == close;
      LineOpens(t, outer, "/dict", rest);
    } else {
      var e := entries[0];
      var more := PrintEntries(indent, entries[1..]) + close;
      var key, value := Leaf(indent, "key", "/key", e.key), PrintValue(indent, e.value);
      assert PrintEntries(indent, entries) + close == key + (value + more);
      LeafOpens(t, indent, "key", "/key", e.key, value + more);
      BlankDeeper(indent);
      ReadPrintedValue(['\n'], indent, e.value, more);
      ReadPrintedEntries(['\n'], indent, outer, entries[1..], rest);
      assert [Entry(e.key, e.value)] + entries[1..] == entries;
    }
  }
}
