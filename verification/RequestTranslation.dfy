// Tools and history of lg_cli/anthropic_bridge.py, `translate_request`: flat wire names
// for nested tools, and messages merged by role.
module RequestTranslation {
  import opened Prelude
  import opened Wire
  import Decimal
  import Stream = StreamTranslation

  // ---------------------------------------------------------------- tools

  datatype ToolDef =
    | FunctionTool(name: string)
    | CustomTool(name: string)
    | Namespace(name: string, tools: seq<ToolDef>)
    | OtherTool

  const PREFIX := "lg_tool_"
  const STRUCTURED := "lg_structured_output"

  function WireName(k: nat): string {
    PREFIX + Decimal.Written(k)
  }

  // The tools in order; a nested tool has the name of its innermost namespace.
  function SpecOf(tool: ToolDef, namespace: Option<string>): Option<seq<Spec>>
    decreases tool
  {
    match tool
    case FunctionTool(name) => Some([Tool(name, namespace, false)])
    case CustomTool(name) => Some([Tool(name, namespace, true)])
    case Namespace(name, tools) => SpecsOf(tools, Some(name))
    case OtherTool => None
  }

  function SpecsOf(tools: seq<ToolDef>, namespace: Option<string>): Option<seq<Spec>>
    decreases tools
  {
    if tools == [] then Some([])
    else
      var before, last := SpecsOf(tools[..|tools| - 1], namespace), SpecOf(tools[|tools| - 1], namespace);
      if before.Some? && last.Some? then Some(before.value + last.value) else None
  }

  // The tool a path leads to: a position, and below a namespace a path into its tools.
  function LeafAt(tools: seq<ToolDef>, namespace: Option<string>, path: seq<nat>): Option<Spec>
    decreases |path|
  {
    if path == [] || path[0] >= |tools| then None
    else match tools[path[0]]
      case FunctionTool(name) => if |path| == 1 then Some(Tool(name, namespace, false)) else None
      case CustomTool(name) => if |path| == 1 then Some(Tool(name, namespace, true)) else None
      case Namespace(name, inner) => LeafAt(inner, Some(name), path[1..])
      case OtherTool => None
  }

  predicate Unsupported(tools: seq<ToolDef>, path: seq<nat>)
    decreases |path|
  {
    && path != []
    && path[0] < |tools|
    && match tools[path[0]]
       case Namespace(_, inner) => Unsupported(inner, path[1..])
       case OtherTool => |path| == 1
       case _ => false
  }

  // The order of the text of a request.
  predicate Before(p: seq<nat>, q: seq<nat>) {
    p != [] && q != [] && (p[0] < q[0] || (p[0] == q[0] && Before(p[1..], q[1..])))
  }

  // `specs` are the tools of the tree, each once, in the order of the text.
  ghost predicate ListsTools(tools: seq<ToolDef>, namespace: Option<string>, specs: seq<Spec>, paths: seq<seq<nat>>) {
    && |paths| == |specs|
    && (forall k | 0 <= k < |paths| :: LeafAt(tools, namespace, paths[k]) == Some(specs[k]))
    && (forall j, k | 0 <= j < k < |paths| :: Before(paths[j], paths[k]))
    && (forall path | LeafAt(tools, namespace, path).Some? :: path in paths)
  }

  // Every tool of a supported request is listed, in order, with its innermost namespace.
  lemma {:induction false} ToolsInOrder(tools: seq<ToolDef>, namespace: Option<string>) returns (paths: seq<seq<nat>>)
    requires SpecsOf(tools, namespace).Some?
    ensures ListsTools(tools, namespace, SpecsOf(tools, namespace).value, paths)
    decreases tools
  {
    if tools == [] {
      return [];
    }
    var n := |tools| - 1;
    var before := ToolsInOrder(tools[..n], namespace);
    var last := LastInOrder(tools, namespace);
    OrderJoins(tools, namespace, SpecsOf(tools[..n], namespace).value, before, SpecOf(tools[n], namespace).value, last);
    return before + last;
  }

  // A path that does not enter the last tool does not see it.
  lemma LeafInit(tools: seq<ToolDef>, namespace: Option<string>, path: seq<nat>)
    requires tools != [] && (path != [] ==> path[0] != |tools| - 1)
    ensures LeafAt(tools, namespace, path) == LeafAt(tools[..|tools| - 1], namespace, path)
    ensures Unsupported(tools, path) == Unsupported(tools[..|tools| - 1], path)
  {
  }

  // The paths into the last tool.
  ghost predicate ListsLast(tools: seq<ToolDef>, namespace: Option<string>, specs: seq<Spec>, paths: seq<seq<nat>>)
    requires tools != []
  {
    && |paths| == |specs|
    && (forall k | 0 <= k < |paths| :: LeafAt(tools, namespace, paths[k]) == Some(specs[k]))
    && (forall k | 0 <= k < |paths| :: paths[k] != [] && paths[k][0] == |tools| - 1)
    && (forall j, k | 0 <= j < k < |paths| :: Before(paths[j], paths[k]))
    && (forall path | LeafAt(tools, namespace, path).Some? && path[0] == |tools| - 1 :: path in paths)
  }

  lemma {:induction false} LastInOrder(tools: seq<ToolDef>, namespace: Option<string>) returns (paths: seq<seq<nat>>)
    requires tools != [] && SpecOf(tools[|tools| - 1], namespace).Some?
    ensures ListsLast(tools, namespace, SpecOf(tools[|tools| - 1], namespace).value, paths)
    decreases tools, 0
  {
    var n: nat := |tools| - 1;
    var tool := tools[n];
    if tool.Namespace? {
      var inner := ToolsInOrder(tool.tools, Some(tool.name));
      paths := seq(|inner|, k requires 0 <= k < |inner| => [n] + inner[k]);
      InnerInOrder(tools, namespace, SpecOf(tool, namespace).value, inner, paths);
    } else {
      paths := [[n]];
      forall path | LeafAt(tools, namespace, path).Some? && path[0] == n
        ensures path in paths
      {
        assert path == [n];
      }
    }
  }

  // Below a namespace the paths get the position of the namespace in front.
  lemma InnerInOrder(tools: seq<ToolDef>, namespace: Option<string>, specs: seq<Spec>, inner: seq<seq<nat>>,
                     paths: seq<seq<nat>>)
    requires tools != [] && tools[|tools| - 1].Namespace?
    requires ListsTools(tools[|tools| - 1].tools, Some(tools[|tools| - 1].name), specs, inner)
    requires |paths| == |inner|
    requires forall k | 0 <= k < |inner| :: paths[k] != [] && paths[k][0] == |tools| - 1 && paths[k][1..] == inner[k]
    ensures ListsLast(tools, namespace, specs, paths)
  {
    forall k | 0 <= k < |paths|
      ensures LeafAt(tools, namespace, paths[k]) == Some(specs[k])
    {
      assert paths[k][1..] == inner[k];
    }
    forall j, k | 0 <= j < k < |paths|
      ensures Before(paths[j], paths[k])
    {
      assert Before(inner[j], inner[k]);
    }
    forall path | LeafAt(tools, namespace, path).Some? && path[0] == |tools| - 1
      ensures path in paths
    {
      assert path[1..] in inner;
      var k :| 0 <= k < |inner| && inner[k] == path[1..];
      assert path == [path[0]] + path[1..] && paths[k] == [paths[k][0]] + paths[k][1..];
    }
  }

  lemma OrderJoins(tools: seq<ToolDef>, namespace: Option<string>, specs: seq<Spec>, before: seq<seq<nat>>,
                   more: seq<Spec>, last: seq<seq<nat>>)
    requires tools != []
    requires ListsTools(tools[..|tools| - 1], namespace, specs, before) && ListsLast(tools, namespace, more, last)
    ensures ListsTools(tools, namespace, specs + more, before + last)
  {
    var n, paths := |tools| - 1, before + last;
    forall k | 0 <= k < |before|
      ensures before[k] != [] && before[k][0] < n && LeafAt(tools, namespace, before[k]) == Some(specs[k])
    {
      assert LeafAt(tools[..n], namespace, before[k]) == Some(specs[k]);
      LeafInit(tools, namespace, before[k]);
    }
    forall path | LeafAt(tools, namespace, path).Some?
      ensures path in paths
    {
      if path[0] == n {
        assert path in last;
      } else {
        LeafInit(tools, namespace, path);
        assert path in before;
      }
    }
    forall j, k | 0 <= j < k < |paths|
      ensures Before(paths[j], paths[k])
    {
      if k < |before| {
        assert Before(before[j], before[k]);
      } else if j >= |before| {
        assert Before(last[j - |before|], last[k - |before|]);
      } else {
        assert paths[j] == before[j] && paths[k] == last[k - |before|];
      }
    }
  }

  // A request is refused for its tools exactly when one of them is of another type.
  lemma {:induction false} SupportedIff(tools: seq<ToolDef>, namespace: Option<string>)
    ensures SpecsOf(tools, namespace).None? <==> exists path :: Unsupported(tools, path)
    decreases tools
  {
    if tools != [] {
      var n := |tools| - 1;
      SupportedIff(tools[..n], namespace);
      LastSupportedIff(tools, namespace);
      if SpecsOf(tools[..n], namespace).None? {
        var path :| Unsupported(tools[..n], path);
        LeafInit(tools, namespace, path);
      }
      if path :| Unsupported(tools, path) {
        if path[0] != n {
          LeafInit(tools, namespace, path);
        }
      }
    }
  }

  lemma {:induction false} LastSupportedIff(tools: seq<ToolDef>, namespace: Option<string>)
    requires tools != []
    ensures var n := |tools| - 1;
      SpecOf(tools[n], namespace).None? <==> exists path :: Unsupported(tools, path) && path[0] == n
    decreases tools, 0
  {
    var n: nat := |tools| - 1;
    var tool := tools[n];
    if tool.Namespace? {
      SupportedIff(tool.tools, Some(tool.name));
      forall inner
        ensures Unsupported(tools, [n] + inner) == Unsupported(tool.tools, inner)
      {
        InnerUnsupported(tools, [n] + inner);
        assert ([n] + inner)[1..] == inner;
      }
      if SpecOf(tool, namespace).None? {
        var inner :| Unsupported(tool.tools, inner);
        var path := [n] + inner;
        assert Unsupported(tools, path) && path[0] == n;
      } else {
        forall path | Unsupported(tools, path) && path[0] == n
          ensures false
        {
          InnerUnsupported(tools, path);
        }
      }
    } else if tool.OtherTool? {
      assert Unsupported(tools, [n]);
    }
  }

  lemma InnerUnsupported(tools: seq<ToolDef>, path: seq<nat>)
    requires path != [] && path[0] < |tools| && tools[path[0]].Namespace?
    ensures Unsupported(tools, path) == Unsupported(tools[path[0]].tools, path[1..])
  {
  }

  function Wired(specs: seq<Spec>): Mapping {
    if specs == [] then map[] else Wired(specs[..|specs| - 1])[WireName(|specs| - 1) := specs[|specs| - 1]]
  }

  lemma NamesDistinct(j: nat, k: nat)
    requires WireName(j) == WireName(k)
    ensures j == k
  {
    assert WireName(j)[|PREFIX|..] == Decimal.Written(j) && WireName(k)[|PREFIX|..] == Decimal.Written(k);
    Decimal.WrittenDistinct(j, k);
  }

  lemma NeverStructured(k: nat)
    ensures WireName(k) != STRUCTURED
  {
    assert WireName(k)[3] == 't' && STRUCTURED[3] == 's';
  }

  // The mapping holds every tool under its own name, and nothing else.
  lemma {:induction false} WiredSize(specs: seq<Spec>)
    ensures |Wired(specs)| == |specs|
    ensures forall k: nat :: WireName(k) in Wired(specs) <==> k < |specs|
    ensures forall k: nat | k < |specs| :: WireName(k) in Wired(specs) && Wired(specs)[WireName(k)] == specs[k]
    ensures forall name | name in Wired(specs) :: exists k: nat :: name == WireName(k)
  {
    if specs != [] {
      var init := specs[..|specs| - 1];
      WiredSize(init);
      forall k: nat | WireName(k) == WireName(|init|)
        ensures k == |init|
      {
        NamesDistinct(k, |init|);
      }
      assert WireName(|init|) !in Wired(init);
    }
  }

  // One tool, and with it all tools nested in it.
  method AddTool(tool: ToolDef, namespace: Option<string>, before: seq<Spec>, mapping: Mapping)
    returns (ok: bool, specs: seq<Spec>, more: Mapping)
    requires mapping == Wired(before)
    ensures ok <==> SpecOf(tool, namespace).Some?
    ensures ok ==> specs == before + SpecOf(tool, namespace).value && more == Wired(specs)
    decreases tool, 0
  {
    specs, more := before, mapping;
    match tool
    case OtherTool => return false, specs, more;
    case Namespace(name, tools) =>
      ok, specs, more := AddTools(tools, Some(name), before, mapping);
    case _ =>
      var spec := Tool(tool.name, namespace, tool.CustomTool?);
      WiredSize(before);
      WiredSnoc(before, spec);
      more := mapping[WireName(|mapping|) := spec];
      specs := before + [spec];
      ok := true;
  }

  lemma WiredSnoc(specs: seq<Spec>, spec: Spec)
    ensures Wired(specs + [spec]) == Wired(specs)[WireName(|specs|) := spec]
  {
    assert (specs + [spec])[..|specs|] == specs;
  }

  method AddTools(tools: seq<ToolDef>, namespace: Option<string>, before: seq<Spec>, mapping: Mapping)
    returns (ok: bool, specs: seq<Spec>, more: Mapping)
    requires mapping == Wired(before)
    ensures ok <==> SpecsOf(tools, namespace).Some?
    ensures ok ==> specs == before + SpecsOf(tools, namespace).value && more == Wired(specs)
    decreases tools, 1
  {
    specs, more := before, mapping;
    for i := 0 to |tools|
      invariant more == Wired(specs)
      invariant SpecsOf(tools[..i], namespace).Some? && specs == before + SpecsOf(tools[..i], namespace).value
    {
      SpecsSnoc(tools, i, namespace, before);
      ok, specs, more := AddTool(tools[i], namespace, specs, more);
      if !ok {
        SpecsNone(tools, i + 1, namespace);
        return;
      }
    }
    assert tools[..|tools|] == tools;
    return true, specs, more;
  }

  lemma SpecsSnoc(tools: seq<ToolDef>, i: nat, namespace: Option<string>, before: seq<Spec>)
    requires i < |tools| && SpecsOf(tools[..i], namespace).Some?
    ensures var sum, last := SpecsOf(tools[..i + 1], namespace), SpecOf(tools[i], namespace);
      && (sum.Some? <==> last.Some?)
      && (sum.Some? ==>
        before + SpecsOf(tools[..i], namespace).value + last.value == before + sum.value)
  {
    assert tools[..i + 1][..i] == tools[..i];
    var init, last := SpecsOf(tools[..i], namespace).value, SpecOf(tools[i], namespace);
    if last.Some? {
      assert before + init + last.value == before + (init + last.value);
    }
  }

  lemma {:induction false} SpecsNone(tools: seq<ToolDef>, i: nat, namespace: Option<string>)
    requires i <= |tools| && SpecsOf(tools[..i], namespace).None?
    ensures SpecsOf(tools, namespace).None?
    decreases |tools| - i
  {
    if i < |tools| {
      assert tools[..i + 1][..i] == tools[..i];
      SpecsNone(tools, i + 1, namespace);
    } else {
      assert tools[..i] == tools;
    }
  }

  // ---------------------------------------------------------------- history calls and back

  predicate Same(spec: Spec, name: string, namespace: Option<string>) {
    spec.Tool? && spec.name == name && spec.namespace == namespace
  }

  // The first tool of that name and namespace.
  function Find(specs: seq<Spec>, name: string, namespace: Option<string>): (found: Option<nat>)
    ensures found.Some? ==> found.value < |specs| && Same(specs[found.value], name, namespace)
    ensures found.Some? ==> forall k | 0 <= k < found.value :: !Same(specs[k], name, namespace)
    ensures found.None? ==> forall k | 0 <= k < |specs| :: !Same(specs[k], name, namespace)
  {
    if specs == [] then None
    else if Same(specs[0], name, namespace) then Some(0)
    else match Find(specs[1..], name, namespace)
      case None => None
      case Some(k) => Some(k + 1)
  }

  // The mapping of the whole request, with the schema tool when one is asked for.
  function Requested(specs: seq<Spec>, structured: bool): Mapping {
    if structured then Wired(specs)[STRUCTURED := Structured] else Wired(specs)
  }

  lemma RequestedAt(specs: seq<Spec>, structured: bool, k: nat)
    requires k < |specs|
    ensures WireName(k) in Requested(specs, structured) && Requested(specs, structured)[WireName(k)] == specs[k]
  {
    WiredSize(specs);
    NeverStructured(k);
  }

  // The tools under their wire names, the schema tool when one is asked for, nothing else.
  ghost predicate Maps(mapping: Mapping, specs: seq<Spec>, structured: bool) {
    && (forall k: nat | k < |specs| :: WireName(k) in mapping && mapping[WireName(k)] == specs[k])
    && (structured ==> STRUCTURED in mapping && mapping[STRUCTURED] == Structured)
    && forall name | name in mapping ::
         (structured && name == STRUCTURED) || exists k: nat :: k < |specs| && name == WireName(k)
  }

  lemma RequestedMaps(specs: seq<Spec>, structured: bool)
    ensures Maps(Requested(specs, structured), specs, structured)
  {
    WiredSize(specs);
    forall k: nat | k < |specs|
      ensures WireName(k) in Requested(specs, structured) && Requested(specs, structured)[WireName(k)] == specs[k]
    {
      RequestedAt(specs, structured, k);
    }
    forall name | name in Requested(specs, structured) && name != STRUCTURED
      ensures exists k: nat :: k < |specs| && name == WireName(k)
    {
      var k: nat :| name == WireName(k);
    }
    if !structured {
      forall name | name in Wired(specs)
        ensures exists k: nat :: k < |specs| && name == WireName(k)
      {
        var k: nat :| name == WireName(k);
      }
    }
  }

  // What the stream calls a block that uses the wire name of a history call.
  function CalledBack(b: Stream.Bridge, wire: string): Stream.Kind
    requires wire in b.mapping
  {
    Stream.KindOf(b, Stream.ToolBlock("", wire, Null))
  }

  function NameBack(kind: Stream.Kind): Option<(string, Option<string>)> {
    match kind
    case FunctionKind(name, namespace) => Some((name, namespace))
    case CustomKind(name, namespace) => Some((name, namespace))
    case _ => None
  }

  // The name and the namespace of a history call come back through the stream, except
  // that an empty namespace comes back as none.
  lemma HistoryNameBack(b: Stream.Bridge, specs: seq<Spec>, structured: bool, name: string, namespace: Option<string>)
    requires Maps(b.mapping, specs, structured) && Find(specs, name, namespace).Some?
    ensures var wire := WireName(Find(specs, name, namespace).value);
      && wire in b.mapping
      && (NameBack(CalledBack(b, wire)) == Some((name, namespace)) <==> namespace != Some(""))
      && (namespace == Some("") ==> NameBack(CalledBack(b, wire)) == Some((name, None)))
  {
    assert WireName(Find(specs, name, namespace).value) in b.mapping;
  }

  // It comes back as the kind of the first such tool.
  lemma HistoryKindBack(b: Stream.Bridge, specs: seq<Spec>, structured: bool, name: string, namespace: Option<string>,
                        custom: bool)
    requires Maps(b.mapping, specs, structured) && Find(specs, name, namespace).Some?
    ensures var k := Find(specs, name, namespace).value;
      && WireName(k) in b.mapping
      && (CalledBack(b, WireName(k)).CustomKind? == custom <==> specs[k].custom == custom)
  {
    assert WireName(Find(specs, name, namespace).value) in b.mapping;
  }

  // So two tools that differ only in kind share the wire name of the first.
  lemma KindsConfused(b: Stream.Bridge)
    requires Maps(b.mapping, [Tool("t", None, false), Tool("t", None, true)], false)
    ensures Find([Tool("t", None, false), Tool("t", None, true)], "t", None) == Some(0)
    ensures WireName(0) in b.mapping && CalledBack(b, WireName(0)).FunctionKind?
  {
    assert WireName(0) in b.mapping;
  }

  // ---------------------------------------------------------------- messages

  datatype Role = User | Assistant

  datatype Part = TextPart(text: string) | OtherPart

  datatype Content = Plain(text: string) | Parts(parts: seq<Part>) | NoContent

  datatype Chunk =
    | TextChunk(text: string)
    | ToolUse(id: string, wire: string, input: Json)
    | ToolResult(id: string, content: seq<string>)

  datatype Entry =
    | SystemEntry(content: Content)
    | MessageEntry(role: Role, content: Content)
    | AgentEntry(address: string, content: Content)
    | FunctionCall(callId: string, name: string, namespace: Option<string>, arguments: string)
    | CustomCall(callId: string, name: string, namespace: Option<string>, input: string)
    | OutputEntry(callId: string, content: Content)
    | OtherEntry

  datatype Message = Message(role: Role, chunks: seq<Chunk>)

  function PartTexts(parts: seq<Part>): Option<seq<string>> {
    if parts == [] then Some([])
    else match PartTexts(parts[..|parts| - 1])
      case None => None
      case Some(texts) => if parts[|parts| - 1].TextPart? then Some(texts + [parts[|parts| - 1].text]) else None
  }

  function Texts(content: Content): Option<seq<string>> {
    match content
    case Plain(text) => Some(if text == "" then [] else [text])
    case Parts(parts) => PartTexts(parts)
    case NoContent => None
  }

  function TextChunks(texts: seq<string>): seq<Chunk> {
    seq(|texts|, i requires 0 <= i < |texts| => TextChunk(texts[i]))
  }

  // What one entry adds to the conversation, and to the system text.
  datatype Added = Added(role: Role, chunks: seq<Chunk>, system: seq<string>)

  function Translated(entry: Entry, specs: seq<Spec>, parse: string -> Option<Json>): Option<Added> {
    match entry
    case SystemEntry(content) =>
      (match Texts(content) case None => None case Some(texts) => Some(Added(User, [], texts)))
    case MessageEntry(role, content) =>
      (match Texts(content) case None => None case Some(texts) => Some(Added(role, TextChunks(texts), [])))
    case AgentEntry(address, content) =>
      (match Texts(content)
       case None => None
       case Some(texts) => Some(Added(User, [TextChunk("Agent message " + address)] + TextChunks(texts), [])))
    case FunctionCall(id, name, namespace, arguments) =>
      var k, args := Find(specs, name, namespace), parse(arguments);
      if k.None? || args.None? || !args.value.Object? then None
      else Some(Added(Assistant, [ToolUse(id, WireName(k.value), args.value)], []))
    case CustomCall(id, name, namespace, input) =>
      var k := Find(specs, name, namespace);
      if k.None? then None
      else Some(Added(Assistant, [ToolUse(id, WireName(k.value), Object(map["input" := Str(input)]))], []))
    case OutputEntry(id, content) =>
      (match Texts(content) case None => None case Some(texts) => Some(Added(User, [ToolResult(id, texts)], [])))
    case OtherEntry => None
  }

  function Under(role: Role, chunks: seq<Chunk>): seq<(Role, Chunk)> {
    seq(|chunks|, i requires 0 <= i < |chunks| => (role, chunks[i]))
  }

  function Flat(messages: seq<Message>): seq<(Role, Chunk)> {
    if messages == [] then []
    else Flat(messages[..|messages| - 1]) + Under(messages[|messages| - 1].role, messages[|messages| - 1].chunks)
  }

  // Roles alternate and no message is empty.
  ghost predicate Alternating(messages: seq<Message>) {
    && (forall i | 0 <= i < |messages| :: messages[i].chunks != [])
    && (forall i | 0 <= i < |messages| - 1 :: messages[i].role != messages[i + 1].role)
  }

  lemma UnderAppend(role: Role, a: seq<Chunk>, b: seq<Chunk>)
    ensures Under(role, a + b) == Under(role, a) + Under(role, b)
  {
  }

  lemma FlatSnoc(messages: seq<Message>, last: Message)
    ensures Flat(messages + [last]) == Flat(messages) + Under(last.role, last.chunks)
  {
    assert (messages + [last])[..|messages|] == messages;
  }

  // More chunks of the last role go into its message.
  lemma FlatMerged(init: seq<Message>, last: Message, chunks: seq<Chunk>)
    ensures Flat(init + [Message(last.role, last.chunks + chunks)]) == Flat(init + [last]) + Under(last.role, chunks)
  {
    FlatSnoc(init, Message(last.role, last.chunks + chunks));
    FlatSnoc(init, last);
    UnderAppend(last.role, last.chunks, chunks);
    assert Flat(init) + (Under(last.role, last.chunks) + Under(last.role, chunks))
      == Flat(init) + Under(last.role, last.chunks) + Under(last.role, chunks);
  }

  lemma AlternatingSnoc(messages: seq<Message>, last: Message)
    requires Alternating(messages) && last.chunks != []
    requires messages != [] ==> messages[|messages| - 1].role != last.role
    ensures Alternating(messages + [last])
  {
  }

  lemma AlternatingInit(init: seq<Message>, last: Message)
    requires Alternating(init + [last])
    ensures Alternating(init) && (init != [] ==> init[|init| - 1].role != last.role)
  {
    var all := init + [last];
    assert forall i | 0 <= i < |init| :: all[i] == init[i];
    if init != [] {
      assert all[|init| - 1].role != all[|init|].role;
    }
  }

  method Append(messages: seq<Message>, role: Role, chunks: seq<Chunk>) returns (more: seq<Message>)
    requires Alternating(messages)
    ensures Alternating(more) && Flat(more) == Flat(messages) + Under(role, chunks)
  {
    if chunks == [] {
      assert Under(role, chunks) == [];
      return messages;
    }
    var n := |messages|;
    if n > 0 && messages[n - 1].role == role {
      ghost var init := messages[..n - 1];
      var last := messages[n - 1];
      assert messages == init + [last];
      more := messages[..n - 1] + [Message(role, last.chunks + chunks)];
      AlternatingInit(init, last);
      AlternatingSnoc(init, Message(role, last.chunks + chunks));
      FlatMerged(init, last, chunks);
    } else {
      more := messages + [Message(role, chunks)];
      AlternatingSnoc(messages, Message(role, chunks));
      FlatSnoc(messages, Message(role, chunks));
    }
  }

  // ---------------------------------------------------------------- what an entry says

  // A text is one text unless it is empty; of a list every part is a text.
  predicate Says(content: Content, texts: seq<string>) {
    match content
    case Plain(text) => if text == "" then texts == [] else texts == [text]
    case Parts(parts) => |texts| == |parts| && forall i | 0 <= i < |parts| :: parts[i] == TextPart(texts[i])
    case NoContent => false
  }

  predicate Readable(content: Content) {
    match content
    case Plain(_) => true
    case Parts(parts) => forall part | part in parts :: part.TextPart?
    case NoContent => false
  }

  // The first tool of that name and namespace is the k-th.
  predicate First(specs: seq<Spec>, name: string, namespace: Option<string>, k: nat) {
    && k < |specs|
    && Same(specs[k], name, namespace)
    && forall j | 0 <= j < k :: !Same(specs[j], name, namespace)
  }

  // Exactly these texts, all under one role.
  predicate Spelt(piece: seq<(Role, Chunk)>, role: Role, texts: seq<string>) {
    |piece| == |texts| && forall i | 0 <= i < |texts| :: piece[i] == (role, TextChunk(texts[i]))
  }

  ghost predicate Calls(piece: seq<(Role, Chunk)>, id: string, specs: seq<Spec>, name: string,
                        namespace: Option<string>, input: Json)
  {
    exists k: nat :: First(specs, name, namespace, k) && piece == [(Assistant, ToolUse(id, WireName(k), input))]
  }

  // What one entry contributes to the messages, and to the system text.
  ghost predicate Contributes(entry: Entry, specs: seq<Spec>, parse: string -> Option<Json>,
                              piece: seq<(Role, Chunk)>, system: seq<string>)
  {
    match entry
    case SystemEntry(content) => piece == [] && Says(content, system)
    case MessageEntry(role, content) =>
      system == [] && exists texts :: Says(content, texts) && Spelt(piece, role, texts)
    case AgentEntry(address, content) =>
      && system == []
      && |piece| > 0
      && piece[0] == (User, TextChunk("Agent message " + address))
      && exists texts :: Says(content, texts) && Spelt(piece[1..], User, texts)
    case FunctionCall(id, name, namespace, arguments) =>
      && system == []
      && parse(arguments).Some?
      && parse(arguments).value.Object?
      && Calls(piece, id, specs, name, namespace, parse(arguments).value)
    case CustomCall(id, name, namespace, input) =>
      system == [] && Calls(piece, id, specs, name, namespace, Object(map["input" := Str(input)]))
    case OutputEntry(id, content) =>
      system == [] && exists texts :: Says(content, texts) && piece == [(User, ToolResult(id, texts))]
    case OtherEntry => false
  }

  // Whether an entry can be translated, and whether it then says anything in a message.
  predicate Translatable(entry: Entry, specs: seq<Spec>, parse: string -> Option<Json>) {
    match entry
    case SystemEntry(content) => Readable(content)
    case MessageEntry(_, content) => Readable(content)
    case AgentEntry(_, content) => Readable(content)
    case FunctionCall(_, name, namespace, arguments) =>
      && (exists k :: 0 <= k < |specs| && Same(specs[k], name, namespace))
      && parse(arguments).Some?
      && parse(arguments).value.Object?
    case CustomCall(_, name, namespace, _) => exists k :: 0 <= k < |specs| && Same(specs[k], name, namespace)
    case OutputEntry(_, content) => Readable(content)
    case OtherEntry => false
  }

  ghost predicate AllTranslatable(entries: seq<Entry>, specs: seq<Spec>, parse: string -> Option<Json>) {
    forall i | 0 <= i < |entries| :: Translatable(entries[i], specs, parse)
  }

  predicate Speaks(entry: Entry) {
    match entry
    case SystemEntry(_) => false
    case MessageEntry(_, content) => content != Plain("") && content != Parts([])
    case _ => true
  }

  lemma {:induction false} PartTextsSay(parts: seq<Part>)
    ensures PartTexts(parts).Some? <==> Readable(Parts(parts))
    ensures PartTexts(parts).Some? ==> Says(Parts(parts), PartTexts(parts).value)
  {
    if parts != [] {
      var n := |parts| - 1;
      PartTextsSay(parts[..n]);
      assert parts == parts[..n] + [parts[n]];
    }
  }

  lemma TextsSay(content: Content)
    ensures Texts(content).Some? <==> Readable(content)
    ensures Texts(content).Some? ==> Says(content, Texts(content).value)
  {
    if content.Parts? {
      PartTextsSay(content.parts);
    }
  }

  lemma FindsFirst(specs: seq<Spec>, name: string, namespace: Option<string>)
    ensures var found := Find(specs, name, namespace);
      && (found.Some? <==> exists k :: 0 <= k < |specs| && Same(specs[k], name, namespace))
      && (found.Some? ==> First(specs, name, namespace, found.value))
  {
  }

  lemma TranslatesIff(entry: Entry, specs: seq<Spec>, parse: string -> Option<Json>)
    ensures Translated(entry, specs, parse).Some? <==> Translatable(entry, specs, parse)
  {
    match entry
    case FunctionCall(_, name, namespace, _) => FindsFirst(specs, name, namespace);
    case CustomCall(_, name, namespace, _) => FindsFirst(specs, name, namespace);
    case OtherEntry =>
    case _ => TextsSay(entry.content);
  }

  lemma NextTranslatable(entries: seq<Entry>, i: nat, specs: seq<Spec>, parse: string -> Option<Json>)
    requires i < |entries| && AllTranslatable(entries[..i], specs, parse)
    ensures Translated(entries[i], specs, parse).Some? ==> AllTranslatable(entries[..i + 1], specs, parse)
    ensures Translated(entries[i], specs, parse).None? ==> !AllTranslatable(entries, specs, parse)
  {
    TranslatesIff(entries[i], specs, parse);
    forall k | 0 <= k < i
      ensures Translatable(entries[k], specs, parse)
    {
      assert entries[..i][k] == entries[k];
    }
  }

  lemma TranslatedContributes(entry: Entry, specs: seq<Spec>, parse: string -> Option<Json>)
    requires Translated(entry, specs, parse).Some?
    ensures var added := Translated(entry, specs, parse).value;
      Contributes(entry, specs, parse, Under(added.role, added.chunks), added.system)
  {
    var added := Translated(entry, specs, parse).value;
    var piece := Under(added.role, added.chunks);
    match entry
    case SystemEntry(content) => TextsSay(content);
    case MessageEntry(role, content) =>
      TextsSay(content);
      assert Spelt(piece, role, Texts(content).value);
    case AgentEntry(address, content) =>
      TextsSay(content);
      assert Spelt(piece[1..], User, Texts(content).value);
    case FunctionCall(id, name, namespace, arguments) =>
      FindsFirst(specs, name, namespace);
      assert First(specs, name, namespace, Find(specs, name, namespace).value);
    case CustomCall(id, name, namespace, input) =>
      FindsFirst(specs, name, namespace);
      assert First(specs, name, namespace, Find(specs, name, namespace).value);
    case OutputEntry(id, content) =>
      TextsSay(content);
      assert piece == [(User, ToolResult(id, Texts(content).value))];
  }

  function Joined<T>(pieces: seq<seq<T>>): seq<T> {
    if pieces == [] then [] else Joined(pieces[..|pieces| - 1]) + pieces[|pieces| - 1]
  }

  lemma JoinedSnoc<T>(pieces: seq<seq<T>>, piece: seq<T>)
    ensures Joined(pieces + [piece]) == Joined(pieces) + piece
  {
    assert (pieces + [piece])[..|pieces|] == pieces;
  }

  // Every entry contributed its piece and its system text.
  ghost predicate Contributed(entries: seq<Entry>, specs: seq<Spec>, parse: string -> Option<Json>,
                              pieces: seq<seq<(Role, Chunk)>>, systems: seq<seq<string>>)
  {
    && |pieces| == |systems| == |entries|
    && forall i | 0 <= i < |entries| :: Contributes(entries[i], specs, parse, pieces[i], systems[i])
  }

  lemma ContributedSnoc(entries: seq<Entry>, i: nat, specs: seq<Spec>, parse: string -> Option<Json>,
                        pieces: seq<seq<(Role, Chunk)>>, systems: seq<seq<string>>, added: Added,
                        piece: seq<(Role, Chunk)>)
    requires i < |entries| && Translated(entries[i], specs, parse) == Some(added)
    requires piece == Under(added.role, added.chunks)
    requires Contributed(entries[..i], specs, parse, pieces, systems)
    ensures Contributed(entries[..i + 1], specs, parse, pieces + [piece], systems + [added.system])
    ensures Joined(pieces + [piece]) == Joined(pieces) + piece
    ensures Joined(systems + [added.system]) == Joined(systems) + added.system
  {
    TranslatedContributes(entries[i], specs, parse);
    JoinedSnoc(pieces, piece);
    JoinedSnoc(systems, added.system);
  }

  // What was said is nothing exactly when no entry speaks.
  lemma {:induction false} SilentIff(entries: seq<Entry>, specs: seq<Spec>, parse: string -> Option<Json>,
                                     pieces: seq<seq<(Role, Chunk)>>, systems: seq<seq<string>>)
    requires Contributed(entries, specs, parse, pieces, systems)
    ensures Joined(pieces) != [] <==> exists entry :: entry in entries && Speaks(entry)
  {
    if entries != [] {
      var n := |entries| - 1;
      SilentIff(entries[..n], specs, parse, pieces[..n], systems[..n]);
      PieceSilentIff(entries[n], specs, parse, pieces[n], systems[n]);
      assert entries == entries[..n] + [entries[n]];
    }
  }

  lemma PieceSilentIff(entry: Entry, specs: seq<Spec>, parse: string -> Option<Json>, piece: seq<(Role, Chunk)>,
                       system: seq<string>)
    requires Contributes(entry, specs, parse, piece, system)
    ensures piece != [] <==> Speaks(entry)
  {
  }

  const NOTICE := "Use lg_structured_output for your final answer after any necessary tool calls. "
                  + "Do not combine that final answer with other tool calls."

  ghost predicate SystemText(instructions: Content, systems: seq<seq<string>>, structured: bool, system: seq<string>) {
    var notice := if structured then [NOTICE] else [];
    exists texts :: Says(instructions, texts) && system == texts + Joined(systems) + notice
  }

  datatype Payload = Payload(system: seq<string>, messages: seq<Message>, mapping: Mapping)

  // The loop over the history: each entry adds its piece to the messages, and its system text.
  method AddEntries(entries: seq<Entry>, specs: seq<Spec>, parse: string -> Option<Json>)
    returns (ok: bool, messages: seq<Message>, system: seq<string>,
             ghost pieces: seq<seq<(Role, Chunk)>>, ghost systems: seq<seq<string>>)
    ensures ok <==> AllTranslatable(entries, specs, parse)
    ensures ok ==> Contributed(entries, specs, parse, pieces, systems)
    ensures ok ==> Alternating(messages) && Flat(messages) == Joined(pieces) && system == Joined(systems)
  {
    messages, system, pieces, systems := [], [], [], [];
    for i := 0 to |entries|
      invariant Alternating(messages) && Flat(messages) == Joined(pieces) && system == Joined(systems)
      invariant Contributed(entries[..i], specs, parse, pieces, systems)
      invariant AllTranslatable(entries[..i], specs, parse)
    {
      NextTranslatable(entries, i, specs, parse);
      var translated := Translated(entries[i], specs, parse);
      if translated.None? {
        return false, messages, system, pieces, systems;
      }
      var added := translated.value;
      ghost var piece := Under(added.role, added.chunks);
      ContributedSnoc(entries, i, specs, parse, pieces, systems, added, piece);
      messages := Append(messages, added.role, added.chunks);
      system := system + added.system;
      pieces, systems := pieces + [piece], systems + [added.system];
    }
    assert entries[..|entries|] == entries;
    return true, messages, system, pieces, systems;
  }

  // A request is translated if its tools, its instructions and every entry can be, and some
  // entry says something.
  ghost predicate Accepted(tools: seq<ToolDef>, instructions: Content, entries: seq<Entry>,
                           parse: string -> Option<Json>)
  {
    && SpecsOf(tools, None).Some?
    && Readable(instructions)
    && AllTranslatable(entries, SpecsOf(tools, None).value, parse)
    && exists entry :: entry in entries && Speaks(entry)
  }

  // The messages then hold the contributions of the entries in their order, and the system
  // text that of the instructions and the entries.
  ghost predicate Conveys(payload: Payload, instructions: Content, entries: seq<Entry>, specs: seq<Spec>,
                          structured: bool, parse: string -> Option<Json>, pieces: seq<seq<(Role, Chunk)>>,
                          systems: seq<seq<string>>)
  {
    && Contributed(entries, specs, parse, pieces, systems)
    && Alternating(payload.messages)
    && Flat(payload.messages) == Joined(pieces)
    && SystemText(instructions, systems, structured, payload.system)
    && Maps(payload.mapping, specs, structured)
  }

  method TranslateRequest(tools: seq<ToolDef>, instructions: Content, entries: seq<Entry>, structured: bool,
                          parse: string -> Option<Json>)
    returns (payload: Option<Payload>, ghost pieces: seq<seq<(Role, Chunk)>>, ghost systems: seq<seq<string>>)
    ensures payload.Some? <==> Accepted(tools, instructions, entries, parse)
    ensures payload.Some? ==>
      && SpecsOf(tools, None).Some?
      && Conveys(payload.value, instructions, entries, SpecsOf(tools, None).value, structured, parse, pieces, systems)
  {
    pieces, systems := [], [];
    var toolsOk, specs, mapping := AddTools(tools, None, [], map[]);
    if !toolsOk {
      return None, pieces, systems;
    }
    assert specs == SpecsOf(tools, None).value;
    TextsSay(instructions);
    var texts := Texts(instructions);
    if texts.None? {
      return None, pieces, systems;
    }
    var ok, messages, system;
    ok, messages, system, pieces, systems := AddEntries(entries, specs, parse);
    if !ok {
      return None, pieces, systems;
    }
    SilentIff(entries, specs, parse, pieces, systems);
    if messages == [] {
      return None, pieces, systems;
    }
    FlatNonempty(messages);
    RequestedMaps(specs, structured);
    var notice := if structured then [NOTICE] else [];
    if structured {
      mapping := mapping[STRUCTURED := Structured];
    }
    return Some(Payload(texts.value + system + notice, messages, mapping)), pieces, systems;
  }

  lemma FlatNonempty(messages: seq<Message>)
    requires Alternating(messages) && messages != []
    ensures Flat(messages) != [] && Flat(messages)[|Flat(messages)| - 1].0 == messages[|messages| - 1].role
  {
    var last := messages[|messages| - 1];
    assert Under(last.role, last.chunks)[|last.chunks| - 1].0 == last.role;
  }

  // `last` is the whole last run of its role in `f`.
  ghost predicate EndsWith(f: seq<(Role, Chunk)>, last: Message) {
    var n := |last.chunks|;
    && 0 < n <= |f|
    && f[|f| - n..] == Under(last.role, last.chunks)
    && (n < |f| ==> f[|f| - n - 1].0 != last.role)
  }

  lemma LastRun(messages: seq<Message>)
    requires Alternating(messages) && messages != []
    ensures var f, last := Flat(messages), messages[|messages| - 1];
      EndsWith(f, last) && f[..|f| - |last.chunks|] == Flat(messages[..|messages| - 1])
  {
    var init := messages[..|messages| - 1];
    if init != [] {
      FlatNonempty(init);
    }
  }

  // A run has one beginning.
  lemma OneRun(f: seq<(Role, Chunk)>, x: Message, y: Message)
    requires EndsWith(f, x) && EndsWith(f, y)
    ensures |x.chunks| <= |y.chunks|
  {
    var m := |y.chunks|;
    RunRoles(f, x);
    RunRoles(f, y);
    assert f[|f| - 1].0 == x.role == y.role;
    assert m < |f| ==> f[|f| - m - 1].0 != y.role;
  }

  lemma RunRoles(f: seq<(Role, Chunk)>, x: Message)
    requires EndsWith(f, x)
    ensures forall i | |f| - |x.chunks| <= i < |f| :: f[i].0 == x.role
  {
    var start := |f| - |x.chunks|;
    forall i | start <= i < |f|
      ensures f[i].0 == x.role
    {
      assert f[start..][i - start] == Under(x.role, x.chunks)[i - start];
    }
  }

  lemma UnderInjective(x: Message, y: Message)
    requires Under(x.role, x.chunks) == Under(y.role, y.chunks) && x.chunks != []
    ensures x == y
  {
    var u := Under(x.role, x.chunks);
    assert |u| == |x.chunks| == |y.chunks|;
    assert forall i | 0 <= i < |u| :: u[i] == (x.role, x.chunks[i]) && u[i] == (y.role, y.chunks[i]);
    assert u[0].0 == x.role;
    assert forall i | 0 <= i < |u| :: u[i].1 == x.chunks[i] && u[i].1 == y.chunks[i];
    assert x.chunks == y.chunks;
  }

  lemma SameRun(f: seq<(Role, Chunk)>, x: Message, y: Message)
    requires EndsWith(f, x) && EndsWith(f, y)
    ensures x == y
  {
    OneRun(f, x, y);
    OneRun(f, y, x);
    UnderInjective(x, y);
  }

  // The merged messages are the only alternating ones with this order of chunks.
  lemma {:induction false} MergedUniquely(a: seq<Message>, b: seq<Message>)
    requires Alternating(a) && Alternating(b) && Flat(a) == Flat(b)
    ensures a == b
  {
    if a == [] || b == [] {
      if a != [] { FlatNonempty(a); }
      if b != [] { FlatNonempty(b); }
    } else {
      assert a[|a| - 1] == b[|b| - 1] && Flat(a[..|a| - 1]) == Flat(b[..|b| - 1]) by {
        LastRun(a);
        LastRun(b);
        SameRun(Flat(a), a[|a| - 1], b[|b| - 1]);
      }
      MergedUniquely(a[..|a| - 1], b[..|b| - 1]);
      assert a == a[..|a| - 1] + [a[|a| - 1]] && b == b[..|b| - 1] + [b[|b| - 1]];
    }
  }
}
