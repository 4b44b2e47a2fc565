/** The background service's launch specification, its property list, and the way back. */
module LaunchAgent {
  import opened JsText
  import opened Options
  import opened Plist

  datatype LaunchSpec = LaunchSpec(
    name: string,
    program: string,
    args: seq<string>,
    env: map<string, string>,
    workingDirectory: string,
    stdoutPath: string,
    stderrPath: string)

  const XML_DECLARATION := "?xml version=\"1.0\"" + " encoding=\"UTF-8\"?"
  const PUBLIC_ID := "\"-//Apple//DTD" + " PLIST 1.0//EN\""
  const SYSTEM_ID := "\"http://www.apple" + (".com/DTDs/Property" + "List-1.0.dtd\"")
  const DOCTYPE := "!DOCTYPE plist PUBLIC " + (PUBLIC_ID + (" " + SYSTEM_ID))
  const PLIST := "plist version=\"1.0\""

  function Texts(values: seq<string>): (r: seq<Value>)
    ensures |r| == |values| && forall i | 0 <= i < |r| :: r[i] == Text(values[i])
  {
    if values == [] then [] else [Text(values[0])] + Texts(values[1..])
  }

  function Variables(env: map<string, string>, keys: seq<string>): (r: seq<Entry>)
    requires forall i | 0 <= i < |keys| :: keys[i] in env
    ensures |r| == |keys| && forall i | 0 <= i < |r| :: r[i] == Entry(keys[i], Text(env[keys[i]]))
  {
    if keys == [] then [] else [Entry(keys[0], Text(env[keys[0]]))] + Variables(env, keys[1..])
  }

  /** `keys` lists the variable names in the order of the source's locale-dependent sort, whatever it is. */
  ghost predicate Lists(keys: seq<string>, env: map<string, string>) {
    && (forall i | 0 <= i < |keys| :: keys[i] in env)
    && (forall k | k in env :: k in keys)
  }

  function Document(spec: LaunchSpec, keys: seq<string>): Value
    requires forall i | 0 <= i < |keys| :: keys[i] in spec.env
  {
    Entries([
      Entry("Label", Text(spec.name)),
      Entry("ProgramArguments", Items(Texts([spec.program] + spec.args))),
      Entry("EnvironmentVariables", Entries(Variables(spec.env, keys))),
      Entry("WorkingDirectory", Text(spec.workingDirectory)),
      Entry("RunAtLoad", True),
      Entry("KeepAlive", True),
      Entry("ThrottleInterval", Integer("10")),
      Entry("ExitTimeOut", Integer("15")),
      Entry("StandardOutPath", Text(spec.stdoutPath)),
      Entry("StandardErrorPath", Text(spec.stderrPath))])
  }

  function RenderPlist(spec: LaunchSpec, keys: seq<string>): string
    requires forall i | 0 <= i < |keys| :: keys[i] in spec.env
  {
    Line("", XML_DECLARATION) + (Line("", DOCTYPE) + (Line("", PLIST)
    + (PrintValue("", Document(spec, keys)) + Line("", "/plist"))))
  }

  /** The head of the text is that of Apple's property lists. */
  lemma {:induction false} HeadIsApples(publicId: string, systemId: string)
    requires publicId == "\"-//Apple//DTD PLIST 1.0//EN\""
    requires systemId == "\"http://www.apple.com/DTDs/PropertyList-1.0.dtd\""
    ensures XML_DECLARATION == "?xml version=\"1.0\" encoding=\"UTF-8\"?"
    ensures DOCTYPE == "!DOCTYPE plist PUBLIC " + (publicId + (" " + systemId))
    ensures PLIST == "plist version=\"1.0\""
  {
    SystemIdIsApples(systemId);
    PublicIdIsApples(publicId);
  }

  lemma {:induction false} PublicIdIsApples(publicId: string)
    requires publicId == "\"-//Apple//DTD PLIST 1.0//EN\""
    ensures PUBLIC_ID == publicId
  {
  }

  lemma {:induction false} SystemIdIsApples(systemId: string)
    requires systemId == "\"http://www.apple.com/DTDs/PropertyList-1.0.dtd\""
    ensures SYSTEM_ID == systemId
  {
  }

  // ---------------------------------------------------------------- reading

  function ReadDocument(s: string): Option<Value>
    decreases |s|
  {
    var next := NextTag(s);
    if next.Nothing? || !Blank(next.value.text) then None
    else if next.value.tag != [] && (next.value.tag[0] == '?' || next.value.tag[0] == '!') then ReadDocument(next.rest)
    else if !("plist" <= next.value.tag) then None
    else
      var v := ReadValue(next.rest);
      if v.Nothing? then None
      else
        var close := NextTag(v.rest);
        if close.Got? && Blank(close.value.text) && close.value.tag == "/plist" && Blank(close.rest) then Some(v.value)
        else None
  }

  function Lookup(entries: seq<Entry>, key: string): Option<Value> {
    if entries == [] then None
    else if entries[0].key == key then Some(entries[0].value)
    else Lookup(entries[1..], key)
  }

  function TextAt(entries: seq<Entry>, key: string): Option<string> {
    var v := Lookup(entries, key);
    if v.Some? && v.value.Text? then Some(v.value.text) else None
  }

  function AllTexts(items: seq<Value>): Option<seq<string>> {
    if items == [] then Some([])
    else
      var later := AllTexts(items[1..]);
      if items[0].Text? && later.Some? then Some([items[0].text] + later.value) else None
  }

  function AllVariables(entries: seq<Entry>): Option<map<string, string>> {
    if entries == [] then Some(map[])
    else
      var later := AllVariables(entries[1..]);
      if entries[0].value.Text? && later.Some? then Some(later.value[entries[0].key := entries[0].value.text]) else None
  }

  /** What launchd takes from the property list. */
  function ReadSpec(v: Value): Option<LaunchSpec> {
    if !v.Entries? then None
    else
      var es := v.entries;
      var arguments := Lookup(es, "ProgramArguments");
      var variables := Lookup(es, "EnvironmentVariables");
      if arguments.None? || !arguments.value.Items? || variables.None? || !variables.value.Entries? then None
      else
        var command, env := AllTexts(arguments.value.items), AllVariables(variables.value.entries);
        var name, directory := TextAt(es, "Label"), TextAt(es, "WorkingDirectory");
        var out, err := TextAt(es, "StandardOutPath"), TextAt(es, "StandardErrorPath");
        if command.None? || command.value == [] || env.None? || name.None? || directory.None? || out.None? || err.None?
        then None
        else Some(LaunchSpec(name.value, command.value[0], command.value[1..], env.value,
                             directory.value, out.value, err.value))
  }

  // ---------------------------------------------------------------- the round trip

  lemma {:induction false} CleanAppend(a: string, b: string)
    requires Lacks(a, '>') && Lacks(b, '>')
    ensures Lacks(a + b, '>')
  {
  }

  lemma {:induction false} PublicIdIsClean()
    ensures Lacks(PUBLIC_ID, '>')
  {
    CleanAppend("\"-//Apple//DTD", " PLIST 1.0//EN\"");
  }

  lemma {:induction false} SystemIdIsClean()
    ensures Lacks(SYSTEM_ID, '>')
  {
    CleanAppend(".com/DTDs/Property", "List-1.0.dtd\"");
    CleanAppend("\"http://www.apple", ".com/DTDs/Property" + "List-1.0.dtd\"");
  }

  lemma {:induction false} DoctypeIsClean(publicId: string, systemId: string)
    requires Lacks(publicId, '>') && Lacks(systemId, '>')
    ensures Lacks("!DOCTYPE plist PUBLIC " + (publicId + (" " + systemId)), '>')
  {
    CleanAppend(" ", systemId);
    CleanAppend(publicId, " " + systemId);
    CleanAppend("!DOCTYPE plist PUBLIC ", publicId + (" " + systemId));
  }

  lemma {:induction false} DeclarationIsClean()
    ensures Lacks(XML_DECLARATION, '>') && XML_DECLARATION[0] == '?'
  {
    CleanAppend("?xml version=\"1.0\"", " encoding=\"UTF-8\"?");
  }

  lemma {:induction false} PlistTagIsClean()
    ensures Lacks(PLIST, '>') && PLIST[0] == 'p' && "plist" <= PLIST
  {
  }

  lemma {:induction false} SkipDeclaration(t: string, name: string, rest: string)
    requires Blank(t) && Lacks(name, '>') && name != [] && (name[0] == '?' || name[0] == '!')
    ensures ReadDocument(t + (Line("", name) + rest)) == ReadDocument(['\n'] + rest)
  {
    hide NextTag, Line, ReadValue;
    LineOpens(t, "", name, rest);
  }

  lemma {:induction false} ReadBody(t: string, name: string, v: Value)
    requires Blank(t) && Lacks(name, '>') && "plist" <= name && name[0] == 'p'
    ensures ReadDocument(t + (Line("", name) + (PrintValue("", v) + Line("", "/plist")))) == Some(v)
  {
    hide NextTag, Line, ReadValue, PrintValue;
    var close := Line("", "/plist");
    LineOpens(t, "", name, PrintValue("", v) + close);
    ReadPrintedValue(['\n'], "", v, close);
    LineOpens(['\n'], "", "/plist", []);
    assert close + [] == close;
  }

  lemma {:induction false} ReadRendered(spec: LaunchSpec, keys: seq<string>)
    requires forall i | 0 <= i < |keys| :: keys[i] in spec.env
    ensures ReadDocument(RenderPlist(spec, keys)) == Some(Document(spec, keys))
  {
    hide Line, PrintValue, ReadDocument, Document;
    DeclarationIsClean();
    PublicIdIsClean();
    SystemIdIsClean();
    DoctypeIsClean(PUBLIC_ID, SYSTEM_ID);
    PlistTagIsClean();
    var body := Line("", PLIST) + (PrintValue("", Document(spec, keys)) + Line("", "/plist"));
    var second := Line("", DOCTYPE) + body;
    assert RenderPlist(spec, keys) == [] + (Line("", XML_DECLARATION) + second);
    SkipDeclaration([], XML_DECLARATION, second);
    SkipDeclaration(['\n'], DOCTYPE, body);
    ReadBody(['\n'], PLIST, Document(spec, keys));
  }

  lemma {:induction false} TextsReadBack(values: seq<string>)
    ensures AllTexts(Texts(values)) == Some(values)
    decreases |values|
  {
    if values != [] {
      var first, rest := values[0], values[1..];
      assert values == [first] + rest;
      TextsCons(first, rest);
      TextsReadBack(rest);
      AllTextsCons(first, Texts(rest), rest);
    }
  }

  lemma {:induction false} TextsCons(first: string, rest: seq<string>)
    ensures Texts([first] + rest) == [Text(first)] + Texts(rest)
  {
    assert ([first] + rest)[1..] == rest;
  }

  lemma {:induction false} AllTextsCons(first: string, items: seq<Value>, rest: seq<string>)
    requires AllTexts(items) == Some(rest)
    ensures AllTexts([Text(first)] + items) == Some([first] + rest)
  {
    assert ([Text(first)] + items)[1..] == items;
  }

  ghost function Pick(env: map<string, string>, keys: seq<string>): map<string, string>
    requires forall i | 0 <= i < |keys| :: keys[i] in env
  {
    map k | k in keys :: env[k]
  }

  lemma {:induction false} PickCons(env: map<string, string>, keys: seq<string>)
    requires keys != [] && forall i | 0 <= i < |keys| :: keys[i] in env
    ensures Pick(env, keys) == Pick(env, keys[1..])[keys[0] := env[keys[0]]]
  {
    assert keys == [keys[0]] + keys[1..];
  }

  lemma {:induction false} VariablesReadBack(env: map<string, string>, keys: seq<string>)
    requires forall i | 0 <= i < |keys| :: keys[i] in env
    ensures AllVariables(Variables(env, keys)) == Some(Pick(env, keys))
    decreases |keys|
  {
    if keys == [] {
      assert Pick(env, keys) == map[];
    } else {
      hide Pick;
      VariablesReadBack(env, keys[1..]);
      assert Variables(env, keys)[1..] == Variables(env, keys[1..]);
      PickCons(env, keys);
    }
  }

  /** Reading the rendered property list back recovers the launch specification, in any order of the variables. */
  lemma {:induction false} PlistRoundTrip(spec: LaunchSpec, keys: seq<string>)
    requires Lists(keys, spec.env)
    ensures var v := ReadDocument(RenderPlist(spec, keys)); v.Some? && ReadSpec(v.value) == Some(spec)
  {
    ReadRendered(spec, keys);
    hide ReadDocument, RenderPlist;
    DocumentReadsBack(spec, keys);
  }

  lemma {:induction false} DocumentReadsBack(spec: LaunchSpec, keys: seq<string>)
    requires Lists(keys, spec.env)
    ensures ReadSpec(Document(spec, keys)) == Some(spec)
  {
    var command := [spec.program] + spec.args;
    TextsReadBack(command);
    VariablesReadBack(spec.env, keys);
    assert Pick(spec.env, keys) == spec.env;
    hide Lookup, Texts, Variables, AllTexts, AllVariables, Pick, TextAt;
    DocumentFields(spec, keys);
    DocumentTexts(spec, keys);
    hide Document;
    assert command[1..] == spec.args;
  }

  lemma {:induction false} DocumentTexts(spec: LaunchSpec, keys: seq<string>)
    requires forall i | 0 <= i < |keys| :: keys[i] in spec.env
    ensures var v := Document(spec, keys);
            && v.Entries?
            && TextAt(v.entries, "Label") == Some(spec.name)
            && TextAt(v.entries, "WorkingDirectory") == Some(spec.workingDirectory)
            && TextAt(v.entries, "StandardOutPath") == Some(spec.stdoutPath)
            && TextAt(v.entries, "StandardErrorPath") == Some(spec.stderrPath)
  {
    hide Lookup;
    DocumentFields(spec, keys);
  }

  lemma {:induction false} DocumentFields(spec: LaunchSpec, keys: seq<string>)
    requires forall i | 0 <= i < |keys| :: keys[i] in spec.env
    ensures var es := Document(spec, keys).entries;
            && Lookup(es, "Label") == Some(Text(spec.name))
            && Lookup(es, "ProgramArguments") == Some(Items(Texts([spec.program] + spec.args)))
            && Lookup(es, "EnvironmentVariables") == Some(Entries(Variables(spec.env, keys)))
            && Lookup(es, "WorkingDirectory") == Some(Text(spec.workingDirectory))
            && Lookup(es, "StandardOutPath") == Some(Text(spec.stdoutPath))
            && Lookup(es, "StandardErrorPath") == Some(Text(spec.stderrPath))
  {
    hide Texts, Variables, Lookup;
    var es := Document(spec, keys).entries;
    LookupIndex(es, 0, "Label");
    LookupIndex(es, 1, "ProgramArguments");
    LookupIndex(es, 2, "EnvironmentVariables");
    LookupIndex(es, 3, "WorkingDirectory");
    LookupIndex(es, 8, "StandardOutPath");
    LookupIndex(es, 9, "StandardErrorPath");
  }

  /** Read back, the rendered agent starts at login, is kept alive, and has ten seconds between starts and fifteen to stop. */
  lemma {:induction false} RenderedSettings(spec: LaunchSpec, keys: seq<string>)
    requires Lists(keys, spec.env)
    ensures var v := ReadDocument(RenderPlist(spec, keys));
            && v.Some? && v.value.Entries?
            && Lookup(v.value.entries, "RunAtLoad") == Some(True)
            && Lookup(v.value.entries, "KeepAlive") == Some(True)
            && Lookup(v.value.entries, "ThrottleInterval") == Some(Integer("10"))
            && Lookup(v.value.entries, "ExitTimeOut") == Some(Integer("15"))
  {
    ReadRendered(spec, keys);
    DocumentSettings(spec, keys);
    hide ReadDocument, RenderPlist, Document, Lookup;
  }

  lemma {:induction false} DocumentSettings(spec: LaunchSpec, keys: seq<string>)
    requires forall i | 0 <= i < |keys| :: keys[i] in spec.env
    ensures var v := Document(spec, keys);
            && v.Entries?
            && Lookup(v.entries, "RunAtLoad") == Some(True)
            && Lookup(v.entries, "KeepAlive") == Some(True)
            && Lookup(v.entries, "ThrottleInterval") == Some(Integer("10"))
            && Lookup(v.entries, "ExitTimeOut") == Some(Integer("15"))
  {
    hide Texts, Variables, Lookup;
    var es := Document(spec, keys).entries;
    LookupIndex(es, 4, "RunAtLoad");
    LookupIndex(es, 5, "KeepAlive");
    LookupIndex(es, 6, "ThrottleInterval");
    LookupIndex(es, 7, "ExitTimeOut");
  }

  lemma {:induction false} LookupIndex(entries: seq<Entry>, i: nat, key: string)
    requires i < |entries| && entries[i].key == key && forall k | 0 <= k < i :: entries[k].key != key
    ensures Lookup(entries, key) == Some(entries[i].value)
    decreases i
  {
    if i > 0 { LookupIndex(entries[1..], i - 1, key); }
  }
}
