// The streaming translator of lg_cli/anthropic_bridge.py, `translate_stream`, as a fold
// over upstream events, and the method that runs it. Parsing, printing and schema
// validation of JSON are functions of the bridge. Response and item identities, token
// counts and the wording of errors are not part of the model.
module StreamTranslation {
  import opened Prelude
  import opened Wire

  datatype Block =
    | TextBlock(text: string)
    | ThinkingBlock
    | ToolBlock(callId: string, name: string, input: Json)
    | OtherBlock

  datatype Delta = TextDelta(text: string) | JsonDelta(partial: string) | ThinkingDelta | OtherDelta

  datatype Reason = NoReason | EndTurn | ToolUse | StopSequence | MaxTokens | OtherReason

  datatype Source =
    | Ping
    | Failure
    | MessageStart
    | BlockStart(index: int, block: Block)
    | BlockDelta(index: int, delta: Delta)
    | BlockStop(index: int)
    | MessageDelta(reason: Option<Reason>)
    | MessageStop
    | Unknown

  datatype Kind =
    | TextKind
    | StructuredKind
    | FunctionKind(name: string, namespace: Option<string>)
    | CustomKind(name: string, namespace: Option<string>)
  {
    predicate Executable() { FunctionKind? || CustomKind? }
  }

  // An output item: a message with its text, or a call with its arguments or input.
  datatype Item = Item(kind: Kind, callId: string, text: string, completed: bool)

  datatype Event =
    | Created
    | Added(at: nat, item: Item)
    | TextOut(at: nat, text: string)
    | Done(at: nat, item: Item)
    | Completed(output: seq<Item>)

  datatype Slot =
    | Thinking(closed: bool)
    | Open(at: nat, kind: Kind, json: string, initial: Json, closed: bool, bad: bool, wire: string)

  datatype Bridge = Bridge(
    mapping: Mapping,
    parse: string -> Option<Json>,
    dump: Json -> string,
    matches: Json -> bool,
    repair: Option<(string, string) -> Option<Json>>
  )

  datatype State = State(
    started: bool,
    reason: Reason,
    output: seq<Item>,
    slots: map<int, Slot>,
    order: seq<int>,
    deferred: bool
  )

  const EMPTY: State := State(false, NoReason, [], map[], [], false)

  datatype Progress =
    | Going(state: State, out: seq<Event>)
    | Finished(out: seq<Event>)
    | Raised(out: seq<Event>)

  // ---------------------------------------------------------------- one upstream event

  // An empty namespace is dropped, as the item leaves it out.
  function Shown(namespace: Option<string>): Option<string> {
    if namespace == Some("") then None else namespace
  }

  predicate Known(b: Bridge, block: Block) {
    block.TextBlock? || (block.ToolBlock? && block.name in b.mapping)
  }

  function KindOf(b: Bridge, block: Block): Kind
    requires Known(b, block)
  {
    if block.TextBlock? then TextKind
    else match b.mapping[block.name]
      case Structured => StructuredKind
      case Tool(name, namespace, custom) =>
        if custom then CustomKind(name, Shown(namespace)) else FunctionKind(name, Shown(namespace))
  }

  function FirstItem(b: Bridge, block: Block): Item
    requires Known(b, block)
  {
    Item(KindOf(b, block),
         if block.ToolBlock? && KindOf(b, block).Executable() then block.callId else "",
         if block.TextBlock? then block.text else "", false)
  }

  function FirstSlot(b: Bridge, block: Block, at: nat): Slot
    requires Known(b, block)
  {
    Open(at, KindOf(b, block), "", if block.ToolBlock? then block.input else Object(map[]), false, false,
         if block.ToolBlock? then block.name else "")
  }

  function PutSlot(s: State, index: int, slot: Slot): State {
    s.(slots := s.slots[index := slot], order := if index in s.slots then s.order else s.order + [index])
  }

  function PutItem(s: State, at: nat, item: Item): State {
    if at < |s.output| then s.(output := s.output[at := item]) else s
  }

  function Start(b: Bridge, s: State, out: seq<Event>, index: int, block: Block): Progress {
    if block.ThinkingBlock? then Going(PutSlot(s, index, Thinking(false)), out)
    else if !Known(b, block) then Raised(out)
    else
      var at := |s.output|;
      Going(PutSlot(s, index, FirstSlot(b, block, at)).(output := s.output + [FirstItem(b, block)]),
            out + [Added(at, FirstItem(b, block))])
  }

  function Grow(s: State, out: seq<Event>, index: int, delta: Delta): Progress {
    if index !in s.slots then Raised(out)
    else match s.slots[index]
      case Thinking(_) => if delta.ThinkingDelta? then Going(s, out) else Raised(out)
      case Open(at, kind, json, _, _, _, _) =>
        if delta.TextDelta? && kind.TextKind? && at < |s.output| then
          Going(PutItem(s, at, s.output[at].(text := s.output[at].text + delta.text)), out + [TextOut(at, delta.text)])
        else if delta.JsonDelta? && !kind.TextKind? then
          Going(PutSlot(s, index, s.slots[index].(json := json + delta.partial)), out)
        else Raised(out)
  }

  // The arguments of a tool block: what was streamed, or else what it started with.
  function Arguments(b: Bridge, json: string, initial: Json): Option<Json> {
    if json != "" then b.parse(json) else Some(initial)
  }

  function CustomInput(args: Json): Option<string> {
    if args.Object? && "input" in args.fields && args.fields["input"].Str? then Some(args.fields["input"].s) else None
  }

  // The text an item gets from valid arguments.
  function Rendered(b: Bridge, kind: Kind, args: Json): Option<string> {
    if !args.Object? then None
    else match kind
      case TextKind => None
      case StructuredKind => if b.matches(args) then Some(b.dump(args)) else None
      case FunctionKind(_, _) => Some(b.dump(args))
      case CustomKind(_, _) => CustomInput(args)
  }

  function Stop(b: Bridge, s: State, out: seq<Event>, index: int): Progress {
    if index !in s.slots then Raised(out)
    else match s.slots[index]
      case Thinking(_) => Going(PutSlot(s, index, Thinking(true)), out)
      case Open(at, kind, json, initial, _, _, _) =>
        if at >= |s.output| then Raised(out)
        else
          var closed := s.slots[index].(closed := true);
          if kind.TextKind? then
            var item := s.output[at].(completed := true);
            Going(PutItem(PutSlot(s, index, closed), at, item), out + [Done(at, item)])
          else match Arguments(b, json, initial)
            case None =>
              if kind.StructuredKind? then Going(PutSlot(s, index, closed).(deferred := true), out)
              else Going(PutSlot(s, index, closed.(bad := true)), out)
            case Some(args) =>
              match Rendered(b, kind, args)
              case None => Raised(out)
              case Some(text) =>
                if kind.StructuredKind? then
                  var item := s.output[at].(text := text, completed := true);
                  Going(PutItem(PutSlot(s, index, closed), at, item), out + [TextOut(at, text), Done(at, item)])
                else Going(PutItem(PutSlot(s, index, closed), at, s.output[at].(text := text)), out)
  }

  // The executable blocks, in the order their indices were first used.
  function Executables(slots: map<int, Slot>, order: seq<int>): seq<int> {
    if order == [] then []
    else Executables(slots, order[..|order| - 1]) +
         (var u := order[|order| - 1];
          if u in slots && slots[u].Open? && slots[u].kind.Executable() then [u] else [])
  }

  predicate AllClosed(slots: map<int, Slot>) {
    forall u | u in slots :: slots[u].closed
  }

  predicate Complete(s: State) {
    && s.reason != MaxTokens && !s.deferred
    && s.started && s.output != [] && AllClosed(s.slots)
    && (s.reason == EndTurn || s.reason == ToolUse || s.reason == StopSequence)
  }

  predicate SomeBad(s: State, tools: seq<int>) {
    exists u | u in tools :: u in s.slots && s.slots[u].Open? && s.slots[u].bad
  }

  // The one broken call may be repaired when it is the only call of the message.
  predicate MayRepair(b: Bridge, s: State, tools: seq<int>) {
    && b.repair.Some? && |tools| == 1 && s.reason == ToolUse
    && tools[0] in s.slots && s.slots[tools[0]].Open? && s.slots[tools[0]].kind.FunctionKind?
    && s.slots[tools[0]].at < |s.output|
  }

  function Finishing(s: State, tools: seq<int>): State {
    if tools == [] then s
    else
      var before := Finishing(s, tools[..|tools| - 1]);
      var u := tools[|tools| - 1];
      if u in s.slots && s.slots[u].Open? && s.slots[u].at < |before.output| then
        PutItem(before, s.slots[u].at, before.output[s.slots[u].at].(completed := true))
      else before
  }

  function DoneEvents(s: State, tools: seq<int>): seq<Event> {
    if tools == [] then []
    else
      var u := tools[|tools| - 1];
      DoneEvents(s, tools[..|tools| - 1]) +
      (if u in s.slots && s.slots[u].Open? && s.slots[u].at < |s.output|
       then [Done(s.slots[u].at, s.output[s.slots[u].at].(completed := true))] else [])
  }

  function Close(s: State, out: seq<Event>, tools: seq<int>): Progress {
    Finished(out + DoneEvents(s, tools) + [Completed(Finishing(s, tools).output)])
  }

  function Conclude(b: Bridge, s: State, out: seq<Event>): Progress {
    var tools := Executables(s.slots, s.order);
    if !Complete(s) then Raised(out)
    else if !SomeBad(s, tools) then Close(s, out, tools)
    else if !MayRepair(b, s, tools) then Raised(out)
    else
      var slot := s.slots[tools[0]];
      match b.repair.value(slot.wire, slot.json)
      case None => Raised(out)
      case Some(args) => Close(PutItem(s, slot.at, s.output[slot.at].(text := b.dump(args))), out, tools)
  }

  function Step(b: Bridge, s: State, out: seq<Event>, source: Source): Progress {
    match source
    case Ping => Going(s, out)
    case Failure => Raised(out)
    case MessageStart => Going(s.(started := true), out + [Created])
    case BlockStart(index, block) => Start(b, s, out, index, block)
    case BlockDelta(index, delta) => Grow(s, out, index, delta)
    case BlockStop(index) => Stop(b, s, out, index)
    case MessageDelta(reason) => Going(if reason.Some? then s.(reason := reason.value) else s, out)
    case MessageStop => Conclude(b, s, out)
    case Unknown => Raised(out)
  }

  // ---------------------------------------------------------------- the stream

  function Run(b: Bridge, sources: seq<Source>): Progress {
    if sources == [] then Going(EMPTY, [])
    else match Run(b, sources[..|sources| - 1])
      case Going(s, out) => Step(b, s, out, sources[|sources| - 1])
      case ended => ended
  }

  // A stream that ends early raises.
  function Translate(b: Bridge, sources: seq<Source>): Progress {
    match Run(b, sources)
    case Going(_, out) => Raised(out)
    case ended => ended
  }

  lemma {:induction false} RunEnded(b: Bridge, sources: seq<Source>, n: nat)
    requires n <= |sources| && !Run(b, sources[..n]).Going?
    ensures Run(b, sources) == Run(b, sources[..n])
    decreases |sources| - n
  {
    if n < |sources| {
      assert sources[..n + 1][..n] == sources[..n];
      RunEnded(b, sources, n + 1);
    } else {
      assert sources[..n] == sources;
    }
  }

  // The generator: it updates its blocks and its output in place, emits as it goes,
  // and stops at the first error or at the end of the message.
  method TranslateStream(b: Bridge, sources: seq<Source>) returns (out: seq<Event>, ok: bool)
    ensures Translate(b, sources) == if ok then Finished(out) else Raised(out)
  {
    var started, reason, deferred := false, NoReason, false;
    var output: seq<Item> := [];
    var slots: map<int, Slot> := map[];
    var order: seq<int> := [];
    out := [];
    for i := 0 to |sources|
      invariant Run(b, sources[..i]) == Going(State(started, reason, output, slots, order, deferred), out)
    {
      var source := sources[i];
      ghost var before := State(started, reason, output, slots, order, deferred);
      assert sources[..i + 1][..i] == sources[..i];
      ghost var next := Step(b, before, out, source);
      assert Run(b, sources[..i + 1]) == next;
      var raised := false;
      match source {
        case Ping =>
        case Failure => raised := true;
        case Unknown => raised := true;
        case MessageStart =>
          started := true;
          out := out + [Created];
        case MessageDelta(update) =>
          if update.Some? { reason := update.value; }
        case BlockStart(index, block) =>
          if block.ThinkingBlock? {
            order := if index in slots then order else order + [index];
            slots := slots[index := Thinking(false)];
          } else if block.OtherBlock? || (block.ToolBlock? && block.name !in b.mapping) {
            raised := true;
          } else {
            var item := FirstItem(b, block);
            order := if index in slots then order else order + [index];
            slots := slots[index := FirstSlot(b, block, |output|)];
            out := out + [Added(|output|, item)];
            output := output + [item];
          }
        case BlockDelta(index, delta) =>
          if index !in slots {
            raised := true;
          } else {
            var slot := slots[index];
            if slot.Thinking? {
              raised := !delta.ThinkingDelta?;
            } else if delta.TextDelta? && slot.kind.TextKind? && slot.at < |output| {
              output := output[slot.at := output[slot.at].(text := output[slot.at].text + delta.text)];
              out := out + [TextOut(slot.at, delta.text)];
            } else if delta.JsonDelta? && !slot.kind.TextKind? {
              slots := slots[index := slot.(json := slot.json + delta.partial)];
            } else {
              raised := true;
            }
          }
        case BlockStop(index) =>
          if index !in slots || (slots[index].Open? && slots[index].at >= |output|) {
            raised := true;
          } else if slots[index].Thinking? {
            slots := slots[index := Thinking(true)];
          } else {
            var slot := slots[index];
            var item := output[slot.at];
            var args := Arguments(b, slot.json, slot.initial);
            var text := if args.Some? then Rendered(b, slot.kind, args.value) else None;
            if slot.kind.TextKind? || text.Some? {
              if text.Some? && !slot.kind.TextKind? { item := item.(text := text.value); }
              if !slot.kind.Executable() { item := item.(completed := true); }
              if slot.kind.StructuredKind? { out := out + [TextOut(slot.at, item.text)]; }
              if !slot.kind.Executable() { out := out + [Done(slot.at, item)]; }
              output := output[slot.at := item];
              slots := slots[index := slot.(closed := true)];
            } else if args.None? {
              slots := slots[index :=
                slot.(closed := true, bad := if slot.kind.StructuredKind? then slot.bad else true)];
              deferred := deferred || slot.kind.StructuredKind?;
            } else {
              raised := true;
            }
          }
        case MessageStop =>
          ok, out := Finish(b, State(started, reason, output, slots, order, deferred), out);
          RunEnded(b, sources, i + 1);
          return;
      }
      if raised {
        RunEnded(b, sources, i + 1);
        return out, false;
      }
    }
    assert sources[..|sources|] == sources;
    return out, false;
  }

  // The end of the message: nothing executable is done before every check has passed.
  method Finish(b: Bridge, s: State, before: seq<Event>) returns (ok: bool, out: seq<Event>)
    ensures Conclude(b, s, before) == if ok then Finished(out) else Raised(out)
  {
    out := before;
    var tools := Executables(s.slots, s.order);
    if !Complete(s) {
      return false, out;
    }
    var t := s;
    if exists u | u in tools :: u in s.slots && s.slots[u].Open? && s.slots[u].bad {
      if !MayRepair(b, s, tools) {
        return false, out;
      }
      var slot := s.slots[tools[0]];
      var args := b.repair.value(slot.wire, slot.json);
      if args.None? {
        return false, out;
      }
      t := t.(output := t.output[slot.at := t.output[slot.at].(text := b.dump(args.value))]);
    }
    out := FinishCalls(t, tools, out);
    return true, out;
  }

  // The executable items are marked done, in order, and the message is completed.
  method FinishCalls(t: State, tools: seq<int>, before: seq<Event>) returns (out: seq<Event>)
    ensures Finished(out) == Close(t, before, tools)
  {
    out := before;
    var output := t.output;
    for i := 0 to |tools|
      invariant output == Finishing(t, tools[..i]).output && |output| == |t.output|
      invariant out == before + DoneEvents(t, tools[..i])
    {
      assert tools[..i + 1][..i] == tools[..i];
      var u := tools[i];
      if u in t.slots && t.slots[u].Open? && t.slots[u].at < |output| {
        var at := t.slots[u].at;
        output := output[at := output[at].(completed := true)];
        out := out + [Done(at, t.output[at].(completed := true))];
      }
    }
    assert tools[..|tools|] == tools;
    out := out + [Completed(output)];
  }
}
