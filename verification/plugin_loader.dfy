/** Plugin definitions read from markdown files with a small YAML-like
    frontmatter block: agents, commands, skills and hooks, and the parser
    for the frontmatter itself. Reading files and walking directories is
    not modelled; the loaders take the file's stem, path and content. */
module PluginLoader {
  import opened Wrappers
  import opened Text
  import opened OrderedMaps

  /** A frontmatter value: a plain string, or a list for the list keys. */
  datatype FmValue = Str(text: string) | Items(items: seq<string>)

  type Frontmatter = OMap<FmValue>

  const Marker: string := "---"
  /** The closing delimiter searched for after the opening marker. */
  const Delim: string := "\n---\n"

  const ToolsKey: string := "tools"
  const TriggersKey: string := "triggers"

  /** The only keys whose comma-separated values become lists. */
  predicate IsListKey(key: string) {
    key == ToolsKey || key == TriggersKey
  }

  /** `plugin:name` for a plugin's member, the bare name otherwise. */
  function QualifiedName(plugin: string, name: string): string {
    if plugin != "" then plugin + ":" + name else name
  }

  /** A qualified name splits back at its first colon into the plugin and
      the member name, as long as the plugin name has no colon itself. */
  lemma FullNameSplits(plugin: string, name: string)
    requires plugin != "" && ':' !in plugin
    ensures var f := QualifiedName(plugin, name);
            && Find(f, ":") == Some(|plugin|)
            && f[..|plugin|] == plugin && f[|plugin| + 1..] == name
  {
    var f := QualifiedName(plugin, name);
    assert OccursAt(f, ":", |plugin|);
    forall j | 0 <= j < |plugin|
      ensures !OccursAt(f, ":", j)
    {
      assert f[j] == plugin[j];
    }
    FindFirst(f, ":", |plugin|);
  }

  /** A bare name is used unchanged when there is no plugin. */
  lemma FullNameBare(name: string)
    ensures QualifiedName("", name) == name
  {
  }

  // ---------------------------------------------------------------------
  // One frontmatter line

  /** Wrapped in one pair of the same quote character (`"` or `'`). */
  predicate Quoted(v: string) {
    |v| > 0 && (v[0] == '"' || v[0] == '\'') && v[|v| - 1] == v[0]
  }

  /** `value[1:-1]` when the value is quoted, the value otherwise. */
  function Unquote(v: string): (r: string)
    ensures !Quoted(v) ==> r == v
    ensures Quoted(v) && |v| >= 2 ==> v == [v[0]] + r + [v[0]]
    ensures Quoted(v) && |v| == 1 ==> r == ""
  {
    if Quoted(v) then PySlice(v, 1, -1) else v
  }

  /** Removing the quotes undoes adding them. */
  lemma UnquoteQuote(q: char, v: string)
    requires q == '"' || q == '\''
    ensures Unquote([q] + v + [q]) == v
  {
    var w := [q] + v + [q];
    assert Quoted(w);
    assert w == [w[0]] + v + [w[0]];
  }

  /** `[t.strip() for t in v.split(",")]`. */
  function SplitStrip(v: string): (r: seq<string>)
    ensures |r| == |Split(v, ',')|
    ensures forall k :: 0 <= k < |r| ==> r[k] == Strip(Split(v, ',')[k])
  {
    StripEach(Split(v, ','))
  }

  /** The value stored for `key` after trimming and unquoting the raw text. */
  function ValueFor(key: string, raw: string): (r: FmValue)
    ensures r.Items? ==> IsListKey(key) && |r.items| >= 2
  {
    var v := Unquote(Strip(raw));
    if IsListKey(key) && ',' in v then (SplitPresent(v, ','); Items(SplitStrip(v))) else Str(v)
  }

  /** `find` reports no colon only for a line without one. */
  lemma NoColon(line: string)
    requires Find(line, ":").None?
    ensures ':' !in line
  {
    forall k | 0 <= k < |line|
      ensures line[k] != ':'
    {
      assert !OccursAt(line, ":", k);
    }
  }

  /** The text before the first colon has no colon. */
  lemma ColonFreePrefix(line: string, i: nat)
    requires Find(line, ":") == Some(i)
    ensures line[i] == ':' && ':' !in line[..i]
  {
    forall j | 0 <= j < i
      ensures line[j] != ':'
    {
      assert !OccursAt(line, ":", j);
    }
  }

  /** The key before the first colon is trimmed and colon-free. */
  lemma FirstColon(line: string, i: nat)
    requires Find(line, ":") == Some(i)
    ensures line[i] == ':' && ':' !in Strip(line[..i]) && Strip(Strip(line[..i])) == Strip(line[..i])
  {
    ColonFreePrefix(line, i);
    StripChars(line[..i], ':');
    StripStripped(line[..i]);
  }

  /** A line with a colon gives the trimmed text before its first colon as
      the key; a line without one is skipped. */
  function ParseLine(line: string): (r: Option<(string, FmValue)>)
    ensures r.None? <==> ':' !in line
    ensures r.Some? ==> ':' !in r.value.0 && Strip(r.value.0) == r.value.0
    ensures r.Some? && r.value.1.Items? ==> IsListKey(r.value.0) && |r.value.1.items| >= 2
  {
    match Find(line, ":")
    case None =>
      NoColon(line);
      None
    case Some(i) =>
      FirstColon(line, i);
      var key := Strip(line[..i]);
      Some((key, ValueFor(key, line[i + 1..])))
  }

  /** In `key: value` with a colon-free key, the first colon follows the key. */
  lemma KeyColon(key: string, value: string)
    requires ':' !in key
    ensures var line := key + ": " + value;
            Find(line, ":") == Some(|key|) && line[..|key|] == key
  {
    var line := key + ": " + value;
    assert OccursAt(line, ":", |key|);
    forall j | 0 <= j < |key|
      ensures !OccursAt(line, ":", j)
    {
      assert line[j] == key[j];
    }
    FindFirst(line, ":", |key|);
  }

  /** The text after that colon strips to the value. */
  lemma ValueAfterColon(key: string, value: string)
    ensures var line := key + ": " + value;
            Strip(line[|key| + 1..]) == Strip(value)
  {
    var line := key + ": " + value;
    assert line[|key| + 1..] == " " + value + "";
    StripPadded(" ", value, "");
  }

  lemma KeyValueLine(key: string, value: string)
    requires ':' !in key
    ensures var line := key + ": " + value;
            && Find(line, ":") == Some(|key|)
            && line[..|key|] == key
            && Strip(line[|key| + 1..]) == Strip(value)
  {
    KeyColon(key, value);
    ValueAfterColon(key, value);
  }

  /** Writing `key: value` and parsing it back gives the pair again, for a
      trimmed, colon-free key and a trimmed, unquoted scalar value. */
  lemma ParseLineRoundTrip(key: string, value: string)
    requires ':' !in key && Strip(key) == key
    requires Strip(value) == value && !Quoted(value)
    requires !IsListKey(key) || ',' !in value
    ensures ParseLine(key + ": " + value) == Some((key, Str(value)))
  {
    KeyValueLine(key, value);
  }

  /** A list key whose value has a comma yields the trimmed pieces. */
  lemma ParseLineList(key: string, value: string)
    requires IsListKey(key) && ':' !in key && Strip(key) == key
    requires Strip(value) == value && !Quoted(value) && ',' in value
    ensures ParseLine(key + ": " + value) == Some((key, Items(SplitStrip(value))))
  {
    KeyValueLine(key, value);
    var line := key + ": " + value;
    var raw := line[|key| + 1..];
    assert Unquote(Strip(raw)) == value;
    assert ValueFor(key, raw) == Items(SplitStrip(value));
    assert ParseLine(line) == Some((Strip(line[..|key|]), ValueFor(Strip(line[..|key|]), raw)));
  }

  // ---------------------------------------------------------------------
  // The frontmatter block

  /** Assigns each parsed line in order, so a repeated key keeps the value
      of its last line at the position of its first. */
  function ParseLinesFrom(fm: Frontmatter, lines: seq<string>): (r: Frontmatter)
    decreases |lines|
    ensures UniqueKeys(fm) ==> UniqueKeys(r)
  {
    if |lines| == 0 then fm
    else
      var fm' := match ParseLine(lines[0])
                 case Some(kv) => Put(fm, kv.0, kv.1)
                 case None => fm;
      ParseLinesFrom(fm', lines[1..])
  }

  function ParseLines(text: string): (r: Frontmatter)
    ensures UniqueKeys(r)
  {
    ParseLinesFrom([], Split(text, '\n'))
  }

  /** Reference reading of a repeated key: the value on the last line that
      names it. */
  function LastFor(lines: seq<string>, key: string): (r: Option<FmValue>)
    decreases |lines|
  {
    if |lines| == 0 then None
    else
      var l := ParseLine(lines[|lines| - 1]);
      if l.Some? && l.value.0 == key then Some(l.value.1)
      else LastFor(lines[..|lines| - 1], key)
  }

  /** `LastFor` scanning from the front: a later line overrides. */
  lemma {:induction false} LastForCons(lines: seq<string>, key: string)
    requires |lines| > 0
    ensures var l := ParseLine(lines[0]);
            var rest := LastFor(lines[1..], key);
            LastFor(lines, key) ==
              if rest.Some? then rest
              else if l.Some? && l.value.0 == key then Some(l.value.1)
              else None
    decreases |lines|
  {
    if |lines| > 1 {
      var n := |lines|;
      assert lines[1..][..n - 2] == lines[..n - 1][1..];
      assert lines[1..][n - 2] == lines[n - 1];
      LastForCons(lines[..n - 1], key);
    }
  }

  /** Last wins: a key's value after parsing is the value on the last line
      that names it, or its earlier value when no line names it. */
  lemma {:induction false} LastWins(fm: Frontmatter, lines: seq<string>, key: string)
    ensures Get(ParseLinesFrom(fm, lines), key) ==
            if LastFor(lines, key).Some? then LastFor(lines, key) else Get(fm, key)
    decreases |lines|
  {
    if |lines| > 0 {
      var fm' := match ParseLine(lines[0])
                 case Some(kv) => Put(fm, kv.0, kv.1)
                 case None => fm;
      LastWins(fm', lines[1..], key);
      LastForCons(lines, key);
    }
  }

  /** Lists appear only under the list keys. */
  lemma {:induction false} OnlyListKeysHoldLists(fm: Frontmatter, lines: seq<string>, key: string)
    requires forall v :: Get(fm, key) == Some(v) ==> v.Items? ==> IsListKey(key)
    ensures forall v :: Get(ParseLinesFrom(fm, lines), key) == Some(v) ==> v.Items? ==> IsListKey(key)
    decreases |lines|
  {
    if |lines| > 0 {
      var fm' := match ParseLine(lines[0])
                 case Some(kv) => Put(fm, kv.0, kv.1)
                 case None => fm;
      OnlyListKeysHoldLists(fm', lines[1..], key);
    }
  }

  /** The closing delimiter's index inside `content[3:]`. */
  function CloseAt(content: string): Option<nat>
    requires StartsWith(content, Marker)
  {
    Find(content[3..], Delim)
  }

  /** Splits a file into its frontmatter and its stripped body. The body
      starts right after the closing delimiter. */
  function ParseFrontmatter(content: string): (r: (Frontmatter, string))
    ensures UniqueKeys(r.0)
    ensures !StartsWith(content, Marker) ==> r == ([], content)
    ensures StartsWith(content, Marker) && !Contains(content[3..], Delim) ==> r == ([], content)
  {
    if !StartsWith(content, Marker) then ([], content)
    else match CloseAt(content)
      case None => ([], content)
      case Some(m) => (ParseLines(Strip(content[3..m + 3])), Strip(content[m + 8..]))
  }

  /** The same split with the body taken from `end + 3 + 1`, one character
      past the closing delimiter, as loader.py:93 writes it. */
  function ParseFrontmatterAsWritten(content: string): (r: (Frontmatter, string))
    ensures !StartsWith(content, Marker) ==> r == ([], content)
    ensures StartsWith(content, Marker) && !Contains(content[3..], Delim) ==> r == ([], content)
  {
    if !StartsWith(content, Marker) then ([], content)
    else match CloseAt(content)
      case None => ([], content)
      case Some(m) =>
        (ParseLines(Strip(content[3..m + 3])), Strip(PySlice(content, m + 9, |content|)))
  }

  /** The text a file is built from: a frontmatter block and a body. */
  function Document(fmText: string, body: string): string {
    Marker + "\n" + fmText + Delim + body
  }

  /** In a document whose frontmatter does not itself hold the delimiter,
      the first delimiter is the one closing the block. */
  lemma DocumentClose(fmText: string, body: string)
    requires !Contains("\n" + fmText + "\n---", Delim)
    ensures var d := Document(fmText, body);
            StartsWith(d, Marker) && CloseAt(d) == Some(|fmText| + 1)
            && d[3..|fmText| + 4] == "\n" + fmText
            && d[|fmText| + 9..] == body
  {
    var d := Document(fmText, body);
    var rest := d[3..];
    var pre := "\n" + fmText + "\n---";
    assert rest == pre + "\n" + body;
    assert OccursAt(rest, Delim, |fmText| + 1);
    forall j | 0 <= j < |fmText| + 1
      ensures !OccursAt(rest, Delim, j)
    {
      if OccursAt(rest, Delim, j) {
        assert pre[j..j + 5] == rest[j..j + 5];
        assert OccursAt(pre, Delim, j);
        ContainsIffOccurs(pre, Delim);
        assert false;
      }
    }
    FindFirst(rest, Delim, |fmText| + 1);
  }

  /** The frontmatter text of a document strips to its lines. */
  lemma DocumentHead(fmText: string)
    ensures Strip("\n" + fmText) == Strip(fmText)
  {
    StripPadded("\n", fmText, "");
    assert "\n" + fmText + "" == "\n" + fmText;
  }

  /** Round trip: parsing a document gives back its frontmatter lines and
      its stripped body. */
  lemma DocumentRoundTrip(fmText: string, body: string)
    requires !Contains("\n" + fmText + "\n---", Delim)
    ensures ParseFrontmatter(Document(fmText, body)) == (ParseLines(Strip(fmText)), Strip(body))
  {
    DocumentClose(fmText, body);
    DocumentHead(fmText);
  }

  /** Past the delimiter, one more character of the document is the body
      without its first character. */
  lemma DocumentSkip(fmText: string, body: string)
    requires !Contains("\n" + fmText + "\n---", Delim)
    ensures var d := Document(fmText, body);
            PySlice(d, |fmText| + 10, |d|) == PySlice(body, 1, |body|)
  {
    DocumentClose(fmText, body);
    var d := Document(fmText, body);
    if |body| > 0 {
      assert d[|fmText| + 10..] == body[1..];
    }
  }

  /** As written, the body loses its first character. */
  lemma DocumentAsWritten(fmText: string, body: string)
    requires !Contains("\n" + fmText + "\n---", Delim)
    ensures ParseFrontmatterAsWritten(Document(fmText, body)) ==
            (ParseLines(Strip(fmText)), Strip(PySlice(body, 1, |body|)))
  {
    DocumentClose(fmText, body);
    DocumentHead(fmText);
    DocumentSkip(fmText, body);
  }

  /** As written, a trimmed non-empty body never comes back intact: it
      loses its first character. */
  lemma BodyLosesFirstChar(fmText: string, body: string)
    requires !Contains("\n" + fmText + "\n---", Delim)
    requires body != "" && Strip(body) == body
    ensures ParseFrontmatter(Document(fmText, body)).1 == body
    ensures |ParseFrontmatterAsWritten(Document(fmText, body)).1| < |body|
  {
    DocumentRoundTrip(fmText, body);
    DocumentAsWritten(fmText, body);
    var rest := PySlice(body, 1, |body|);
    assert |Strip(rest)| <= |LStrip(rest)| <= |rest| < |body|;
  }

  /** An empty frontmatter block holds no delimiter of its own. */
  lemma EmptyHeadClean()
    ensures !Contains("\n" + "" + "\n---", Delim)
  {
    assert "\n" + "" + "\n---" == "\n\n---";
    assert FindFrom("\n\n---", Delim, 1).None?;
    assert "\n\n---"[1] != Delim[1];
  }

  lemma HiStrips(body: string)
    requires body == "Hi"
    ensures Strip(body) == body && Strip(PySlice(body, 1, |body|)) == "i"
  {
    assert |body| == 2 && body[1] == 'i';
    assert body[1..] == "i";
    StripKeeps(body);
    StripKeeps("i");
  }

  /** The smallest case: the body "Hi" after an empty block comes back as "i". */
  lemma HiLosesH(body: string)
    requires body == "Hi"
    ensures ParseFrontmatterAsWritten(Document("", body)).1 == "i"
    ensures ParseFrontmatter(Document("", body)).1 == "Hi"
  {
    EmptyHeadClean();
    DocumentRoundTrip("", body);
    DocumentAsWritten("", body);
    HiStrips(body);
  }

  // ---------------------------------------------------------------------
  // Definitions loaded from files

  datatype AgentDef = AgentDef(
    name: string, description: string, prompt: string, tools: seq<string>,
    model: string, color: string, plugin: string, filePath: string)
  {
    function FullName(): string { QualifiedName(plugin, name) }
  }

  datatype Command = Command(
    name: string, description: string, prompt: string, argumentHint: string,
    plugin: string, filePath: string)
  {
    function FullName(): string { QualifiedName(plugin, name) }
  }

  datatype Skill = Skill(
    name: string, description: string, prompt: string, triggers: seq<string>,
    plugin: string, filePath: string)

  datatype Hook = Hook(name: string, event: string, script: string, plugin: string, filePath: string)

  datatype Plugin = Plugin(
    name: string, version: string, description: string,
    agents: seq<AgentDef>, commands: seq<Command>, skills: seq<Skill>, hooks: seq<Hook>)

  /** `frontmatter.get(key, default)` for a string-valued key. */
  function StrOr(fm: Frontmatter, key: string, default: string): (r: string)
    ensures Get(fm, key).None? ==> r == default
    ensures Get(fm, key) == Some(Str(r)) || (Get(fm, key).None? && r == default) || Get(fm, key).value.Items?
  {
    var g: Option<FmValue> := Get(fm, key);
    match g
    case Some(Str(v)) => v
    case Some(Items(_)) => default
    case None => default
  }

  /** A list key's value, with a plain string split at commas and trimmed. */
  function ListOf(fm: Frontmatter, key: string): (r: seq<string>)
    ensures Get(fm, key).None? ==> r == []
    ensures forall v :: Get(fm, key) == Some(Str(v)) ==> r == SplitStrip(v)
  {
    var g: Option<FmValue> := Get(fm, key);
    match g
    case Some(Str(v)) => SplitStrip(v)
    case Some(Items(xs)) => xs
    case None => []
  }

  /** A list key's items are the trimmed comma-separated pieces of its
      unquoted value, whether or not the parser already split it. */
  lemma ListOfEitherWay(key: string, raw: string)
    requires IsListKey(key)
    ensures ListOf([(key, ValueFor(key, raw))], key) == SplitStrip(Unquote(Strip(raw)))
  {
    IndexOfIs([(key, ValueFor(key, raw))], key, 0);
  }

  /** The split the loaders use: the program's (`fixed` false) or the
      corrected one (`fixed` true). Both read the same frontmatter. */
  function BodySplit(content: string, fixed: bool): (r: (Frontmatter, string))
    ensures r.0 == ParseFrontmatter(content).0 && UniqueKeys(r.0)
    ensures fixed ==> r == ParseFrontmatter(content)
    ensures !fixed ==> r == ParseFrontmatterAsWritten(content)
  {
    if fixed then ParseFrontmatter(content) else ParseFrontmatterAsWritten(content)
  }

  /** An agent file: the name defaults to the file's stem, the tools to
      none, the model to "default" and the color to "cyan". */
  function LoadAgent(stem: string, path: string, content: string, plugin: string, fixed: bool): (r: AgentDef)
    ensures var (fm, body) := BodySplit(content, fixed);
            && r.prompt == body && r.plugin == plugin && r.filePath == path
            && (!HasKey(fm, "name") ==> r.name == stem)
            && (!HasKey(fm, "tools") ==> r.tools == [])
            && (!HasKey(fm, "model") ==> r.model == "default")
            && (!HasKey(fm, "color") ==> r.color == "cyan")
            && (!HasKey(fm, "description") ==> r.description == "")
  {
    var (fm, body) := BodySplit(content, fixed);
    AgentDef(StrOr(fm, "name", stem), StrOr(fm, "description", ""), body, ListOf(fm, "tools"),
             StrOr(fm, "model", "default"), StrOr(fm, "color", "cyan"), plugin, path)
  }

  /** Every string key of an agent file reaches the definition as written. */
  lemma LoadAgentKeepsValues(stem: string, path: string, content: string, plugin: string, fixed: bool,
                             key: string, v: string)
    requires key in {"name", "description", "model", "color"}
    requires Get(ParseFrontmatter(content).0, key) == Some(Str(v))
    ensures var a := LoadAgent(stem, path, content, plugin, fixed);
            v == (if key == "name" then a.name else if key == "description" then a.description
                  else if key == "model" then a.model else a.color)
  {
  }

  /** A file without frontmatter gives an agent with every default and the
      whole text as its prompt. */
  lemma LoadAgentPlain(stem: string, path: string, content: string, plugin: string, fixed: bool)
    requires !StartsWith(content, Marker)
    ensures LoadAgent(stem, path, content, plugin, fixed) ==
            AgentDef(stem, "", content, [], "default", "cyan", plugin, path)
  {
  }

  /** As written, an agent file's trimmed non-empty body reaches the prompt
      without its first character; the corrected split keeps it whole. */
  lemma LoadAgentPromptAsWritten(stem: string, path: string, fmText: string, body: string, plugin: string)
    requires !Contains("\n" + fmText + "\n---", Delim)
    requires body != "" && Strip(body) == body
    ensures LoadAgent(stem, path, Document(fmText, body), plugin, true).prompt == body
    ensures |LoadAgent(stem, path, Document(fmText, body), plugin, false).prompt| < |body|
  {
    BodyLosesFirstChar(fmText, body);
  }

  /** A command file: always named after the file's stem. */
  function LoadCommand(stem: string, path: string, content: string, plugin: string, fixed: bool): (r: Command)
    ensures r.name == stem && r.prompt == BodySplit(content, fixed).1
    ensures r.plugin == plugin && r.filePath == path
    ensures var fm := ParseFrontmatter(content).0;
            && (!HasKey(fm, "argument-hint") ==> r.argumentHint == "")
            && (!HasKey(fm, "description") ==> r.description == "")
  {
    var (fm, body) := BodySplit(content, fixed);
    Command(stem, StrOr(fm, "description", ""), body, StrOr(fm, "argument-hint", ""), plugin, path)
  }

  /** A skill file: named after the file's stem, triggers read like tools. */
  function LoadSkill(stem: string, path: string, content: string, plugin: string, fixed: bool): (r: Skill)
    ensures r.name == stem && r.prompt == BodySplit(content, fixed).1
    ensures r.plugin == plugin && r.filePath == path
    ensures var fm := ParseFrontmatter(content).0;
            && (!HasKey(fm, "triggers") ==> r.triggers == [])
            && (!HasKey(fm, "description") ==> r.description == "")
            && (forall v :: Get(fm, "triggers") == Some(Str(v)) ==> r.triggers == SplitStrip(v))
  {
    var (fm, body) := BodySplit(content, fixed);
    Skill(stem, StrOr(fm, "description", ""), body, ListOf(fm, "triggers"), plugin, path)
  }

  /** The known hook events, keyed by the lower-case file stem. */
  const EventMap: OMap<string> := [
    ("pretooluse", "PreToolUse"), ("posttooluse", "PostToolUse"),
    ("sessionstart", "SessionStart"), ("stop", "Stop"),
    ("userpromptsubmit", "UserPromptSubmit")]

  /** The event a hook file's stem names: a known event in its canonical
      spelling, or the lower-cased stem itself. */
  function EventFor(stem: string): (r: string)
    ensures HasKey(EventMap, Lower(stem)) ==> r in Values(EventMap)
    ensures !HasKey(EventMap, Lower(stem)) ==> r == Lower(stem)
  {
    match Get(EventMap, Lower(stem))
    case Some(e) => e
    case None => Lower(stem)
  }

  /** Any capitalization of a known event's stem selects that event. */
  lemma EventForKnown(stem: string, i: nat)
    requires i < |EventMap| && Lower(stem) == EventMap[i].0
    ensures EventFor(stem) == EventMap[i].1
  {
    // The five stems differ in length, so only entry `i` matches.
    assert |EventMap[0].0| == 10 && |EventMap[1].0| == 11 && |EventMap[2].0| == 12;
    assert |EventMap[3].0| == 4 && |EventMap[4].0| == 16;
    IndexOfIs(EventMap, Lower(stem), i);
  }

  /** A hook script: the event comes from the file's stem. */
  function LoadHook(stem: string, path: string, plugin: string): (r: Hook)
    ensures r.name == stem && r.script == path && r.filePath == path && r.plugin == plugin
    ensures r.event == Lower(stem) || r.event in Values(EventMap)
  {
    Hook(stem, EventFor(stem), path, plugin, path)
  }
}
