// What the items of a finished translation contain, and which messages finish, said of the
// upstream message and of the request's tool mapping alone.
module StreamContents {
  import opened Prelude
  import opened Wire
  import opened StreamTranslation
  import opened StreamMeaning
  import A = StreamAcceptance

  // ---------------------------------------------------------------- the arguments of a block

  // The object a tool block carries: what its deltas spell, or what it started with when it
  // had none.
  predicate Carries(b: Bridge, json: string, initial: Json, args: Json) {
    args.Object? && if json == "" then args == initial else b.parse(json) == Some(args)
  }

  // Its deltas spell no JSON.
  predicate Broken(b: Bridge, json: string) {
    json != "" && b.parse(json).None?
  }

  // The object suits the tool the wire name stands for.
  predicate Suits(b: Bridge, spec: Spec, args: Json) {
    args.Object? &&
    match spec
    case Structured => b.matches(args)
    case Tool(_, _, custom) => custom ==> "input" in args.fields && args.fields["input"].Str?
  }

  // The text such an object becomes.
  predicate Spells(b: Bridge, spec: Spec, args: Json, text: string) {
    args.Object? &&
    match spec
    case Structured => text == b.dump(args)
    case Tool(_, _, custom) =>
      if custom then "input" in args.fields && args.fields["input"] == Str(text) else text == b.dump(args)
  }

  // The kind and the call id of a block's item.
  predicate Names(b: Bridge, block: Block, item: Item) {
    if block.TextBlock? then item.kind == TextKind && item.callId == ""
    else
      && block.ToolBlock? && block.name in b.mapping
      && match b.mapping[block.name]
         case Structured => item.kind == StructuredKind && item.callId == ""
         case Tool(name, namespace, custom) =>
           var shown := if namespace == Some("") then None else namespace;
           && item.callId == block.callId
           && item.kind == if custom then CustomKind(name, shown) else FunctionKind(name, shown)
  }

  // The text of a block's finished item.
  ghost predicate Holds(b: Bridge, p: seq<Source>, u: int, block: Block, text: string) {
    if block.TextBlock? then text == block.text + TextOf(p, u)
    else
      && block.ToolBlock? && block.name in b.mapping
      && (Given(b, JsonOf(p, u), block, text) || Mended(b, p, u, block, text))
  }

  ghost predicate Given(b: Bridge, json: string, block: Block, text: string)
    requires block.ToolBlock? && block.name in b.mapping
  {
    exists args :: Carries(b, json, block.input, args) && Suits(b, b.mapping[block.name], args)
                   && Spells(b, b.mapping[block.name], args, text)
  }

  // The one broken function call of a message that stopped for it, as the repair mends it.
  ghost predicate Mended(b: Bridge, p: seq<Source>, u: int, block: Block, text: string)
    requires block.ToolBlock? && block.name in b.mapping
  {
    && Broken(b, JsonOf(p, u)) && b.repair.Some? && ReasonOf(p) == ToolUse
    && b.mapping[block.name].Tool? && !b.mapping[block.name].custom
    && var args := b.repair.value(block.name, JsonOf(p, u));
      args.Some? && text == b.dump(args.value)
  }

  // ---------------------------------------------------------------- what the translator computes

  lemma KnownIs(b: Bridge, block: Block)
    ensures Known(b, block) <==> block.TextBlock? || (block.ToolBlock? && block.name in b.mapping)
    ensures Known(b, block) ==> Names(b, block, FirstItem(b, block))
    ensures Known(b, block) ==>
      FirstItem(b, block).text == (if block.TextBlock? then block.text else "") && !FirstItem(b, block).completed
  {
  }

  lemma ArgumentsAre(b: Bridge, p: seq<Source>, u: int, block: Block)
    requires block.ToolBlock?
    ensures ArgumentsOf(b, p, u, block).None? <==> Broken(b, JsonOf(p, u))
    ensures forall args: Json :: Carries(b, JsonOf(p, u), block.input, args) <==>
      args.Object? && ArgumentsOf(b, p, u, block) == Some(args)
  {
  }

  lemma ToolTextIs(b: Bridge, p: seq<Source>, u: int, block: Block)
    requires block.ToolBlock? && Known(b, block)
    ensures ToolText(b, p, u, block).Some? ==> Given(b, JsonOf(p, u), block, ToolText(b, p, u, block).value)
    ensures (exists args :: Carries(b, JsonOf(p, u), block.input, args) && Suits(b, b.mapping[block.name], args))
      ==> ToolText(b, p, u, block).Some?
  {
    ArgumentsAre(b, p, u, block);
    var args := ArgumentsOf(b, p, u, block);
    if ToolText(b, p, u, block).Some? {
      assert Carries(b, JsonOf(p, u), block.input, args.value) && Suits(b, b.mapping[block.name], args.value);
    }
  }

  // ---------------------------------------------------------------- the items of a finished message

  lemma {:induction false} GoingHasNoStop(b: Bridge, p: seq<Source>)
    requires Run(b, p).Going?
    ensures MessageStop !in p
    decreases |p|
  {
    if p != [] {
      var init, e := p[..|p| - 1], p[|p| - 1];
      GoingHasNoStop(b, init);
      assert p == init + [e];
    }
  }

  // In a message that is translated every tool block has usable arguments, or is the one call
  // that was mended.
  lemma EachUsable(b: Bridge, p: seq<Source>, final: seq<Event>, k: nat)
    requires WellFormed(p) && Run(b, p).Going? && Translate(b, p + [MessageStop]) == Finished(final)
    requires k < |Starts(p)| && Starts(p)[k].1.ToolBlock?
    ensures AllKnown(b, Starts(p))
    ensures var (u, block) := Starts(p)[k];
      || ToolText(b, p, u, block).Some?
      || (&& ArgumentsOf(b, p, u, block).None? && KindOf(b, block).FunctionKind?
          && b.repair.Some? && ReasonOf(p) == ToolUse && b.repair.value(block.name, JsonOf(p, u)).Some?)
  {
    GoingHasNoStop(b, p);
    A.TranslatedIff(b, p);
    RunKeeps(b, p, Run(b, p).state, Run(b, p).out);
    BlockUsable(b, p, Run(b, p).state, Run(b, p).out, k);
  }

  lemma BlockUsable(b: Bridge, p: seq<Source>, s: State, out: seq<Event>, k: nat)
    requires WellFormed(p) && Inv(b, p, s, out) && A.WholeMessage(b, p)
    requires k < |Starts(p)| && Starts(p)[k].1.ToolBlock?
    ensures var (u, block) := Starts(p)[k];
      || ToolText(b, p, u, block).Some?
      || (&& ArgumentsOf(b, p, u, block).None? && KindOf(b, block).FunctionKind?
          && b.repair.Some? && ReasonOf(p) == ToolUse && b.repair.value(block.name, JsonOf(p, u)).Some?)
  {
    var (u, block) := Starts(p)[k];
    assert BlockOk(b, p, s, out, k);
    var i := StartsComeFrom(p, k);
    assert Stopped(p, p[i].index);
    if ToolText(b, p, u, block).None? {
      assert A.Unparsed(b, p, Starts(p)[k]);
      assert IsCall(b, Starts(p)[k]);
      var j :| 0 <= j < |Starts(p)| && KindOf(b, Starts(p)[j].1).FunctionKind?
        && b.repair.value(Starts(p)[j].1.name, JsonOf(p, Starts(p)[j].0)).Some?;
      StartIsCall(b, Starts(p), k);
      if j != k { OnlyCall(b, p, k, j); }
    }
  }

  lemma MeaningHolds(b: Bridge, p: seq<Source>, k: nat)
    requires AllKnown(b, Starts(p)) && k < |Starts(p)|
    requires var (u, block) := Starts(p)[k];
      block.ToolBlock? ==>
        || ToolText(b, p, u, block).Some?
        || (&& ArgumentsOf(b, p, u, block).None? && KindOf(b, block).FunctionKind?
            && b.repair.Some? && ReasonOf(p) == ToolUse && b.repair.value(block.name, JsonOf(p, u)).Some?)
    ensures var (u, block) := Starts(p)[k];
      var item := Meaning(b, p)[k];
      item.completed && Names(b, block, item) && Holds(b, p, u, block, item.text)
  {
    var (u, block) := Starts(p)[k];
    KnownIs(b, block);
    if block.ToolBlock? {
      ArgumentsAre(b, p, u, block);
      ToolTextIs(b, p, u, block);
    }
  }

  // Every visible block of a translated message, in start order, is emitted as one added and
  // one done event. The added item has the block's name, call id and starting text. The done
  // item has them too, and holds the block's whole text: a function call the dump of the object
  // its deltas spell, or of what it started with; a custom call the input string of that
  // object; structured output the dump of the matching object; a message the joined text. The
  // completed output holds the same items in the same order.
  lemma Contents(b: Bridge, p: seq<Source>, final: seq<Event>, k: nat) returns (first: Item, item: Item)
    requires WellFormed(p) && Run(b, p).Going? && Translate(b, p + [MessageStop]) == Finished(final)
    requires k < |Starts(p)|
    ensures var (u, block) := Starts(p)[k];
      && Names(b, block, first) && !first.completed && first.text == (if block.TextBlock? then block.text else "")
      && Names(b, block, item) && item.completed && Holds(b, p, u, block, item.text)
      && (item.kind == TextKind || item.kind == StructuredKind ==> first.text + TextAt(final, k) == item.text)
    ensures |AddedIn(final)| == |Starts(p)| && AddedIn(final)[k] == (k, first) && DoneAt(final, k) == [item]
    ensures final != [] && final[|final| - 1].Completed?
    ensures var output := final[|final| - 1].output; |output| == |Starts(p)| && output[k] == item
  {
    TranslationRefines(b, p, final);
    if Starts(p)[k].1.ToolBlock? { EachUsable(b, p, final, k); }
    KnownIs(b, Starts(p)[k].1);
    MeaningHolds(b, p, k);
    first, item := FirstItem(b, Starts(p)[k].1), Meaning(b, p)[k];
    assert !item.kind.Executable() ==> !IsCall(b, Starts(p)[k]);
  }

  // ---------------------------------------------------------------- which messages finish

  ghost predicate Usable(b: Bridge, p: seq<Source>, u: int, block: Block)
    requires block.ToolBlock? && block.name in b.mapping
  {
    exists args :: Carries(b, JsonOf(p, u), block.input, args) && Suits(b, b.mapping[block.name], args)
  }

  // The event fits the blocks begun before it; a stopping tool block carries an object that
  // suits its tool, or deltas that are no JSON, which waits for the end of the message.
  ghost predicate Fits(b: Bridge, p: seq<Source>, e: Source) {
    match e
    case Ping => true
    case MessageStart => true
    case MessageDelta(_) => true
    case BlockStart(_, block) =>
      block.ThinkingBlock? || block.TextBlock? || (block.ToolBlock? && block.name in b.mapping)
    case BlockDelta(u, delta) =>
      exists block :: BlockStart(u, block) in p &&
        (if block.ThinkingBlock? then delta.ThinkingDelta?
         else if block.TextBlock? then delta.TextDelta? else delta.JsonDelta?)
    case BlockStop(u) =>
      exists block :: BlockStart(u, block) in p &&
        (block.ToolBlock? ==> block.name in b.mapping && (Usable(b, p, u, block) || Broken(b, JsonOf(p, u))))
    case _ => false
  }

  // The block is a call of a tool.
  predicate Calls(b: Bridge, start: (int, Block)) {
    start.1.ToolBlock? && start.1.name in b.mapping && b.mapping[start.1.name].Tool?
  }

  predicate Output(b: Bridge, start: (int, Block)) {
    start.1.ToolBlock? && start.1.name in b.mapping && b.mapping[start.1.name].Structured?
  }

  // One function call is the only call of the message, and the repair mends it.
  ghost predicate OneMended(b: Bridge, p: seq<Source>, k: nat) {
    && k < |Starts(p)| && Calls(b, Starts(p)[k]) && !b.mapping[Starts(p)[k].1.name].custom
    && b.repair.Some? && ReasonOf(p) == ToolUse
    && b.repair.value(Starts(p)[k].1.name, JsonOf(p, Starts(p)[k].0)).Some?
    && forall j | 0 <= j < |Starts(p)| && j != k :: !Calls(b, Starts(p)[j])
  }

  ghost predicate Whole(b: Bridge, p: seq<Source>) {
    && MessageStart in p && Starts(p) != []
    && (ReasonOf(p) == EndTurn || ReasonOf(p) == ToolUse || ReasonOf(p) == StopSequence)
    && (forall i | 0 <= i < |p| && p[i].BlockStart? :: BlockStop(p[i].index) in p)
    && (forall k | 0 <= k < |Starts(p)| && Output(b, Starts(p)[k]) :: !Broken(b, JsonOf(p, Starts(p)[k].0)))
    && ((forall k | 0 <= k < |Starts(p)| && Calls(b, Starts(p)[k]) :: !Broken(b, JsonOf(p, Starts(p)[k].0)))
        || exists k :: OneMended(b, p, k))
  }

  lemma UsableIff(b: Bridge, p: seq<Source>, u: int, block: Block)
    requires block.ToolBlock? && block.name in b.mapping
    ensures Known(b, block)
    ensures Usable(b, p, u, block) <==> ToolText(b, p, u, block).Some?
    ensures Broken(b, JsonOf(p, u)) <==> ArgumentsOf(b, p, u, block).None?
  {
    ToolTextIs(b, p, u, block);
    ArgumentsAre(b, p, u, block);
  }

  lemma FitsIff(b: Bridge, p: seq<Source>, e: Source)
    ensures Fits(b, p, e) <==> A.Fits(b, p, e)
  {
    if e.BlockStop? {
      forall block | BlockStart(e.index, block) in p && block.ToolBlock? && block.name in b.mapping
        ensures Usable(b, p, e.index, block) || Broken(b, JsonOf(p, e.index)) <==> A.StopFits(b, p, e.index, block)
      {
        UsableIff(b, p, e.index, block);
      }
    }
  }

  lemma {:induction false} NoneCalls(b: Bridge, starts: seq<(int, Block)>)
    requires AllKnown(b, starts) && forall k | 0 <= k < |starts| :: !IsCall(b, starts[k])
    ensures CallsIn(b, starts) == []
    decreases |starts|
  {
    if starts != [] { NoneCalls(b, starts[..|starts| - 1]); }
  }

  lemma {:induction false} OneCalls(b: Bridge, starts: seq<(int, Block)>, k: nat)
    requires AllKnown(b, starts) && k < |starts| && IsCall(b, starts[k])
    requires forall j | 0 <= j < |starts| && j != k :: !IsCall(b, starts[j])
    ensures CallsIn(b, starts) == [starts[k].0]
    decreases |starts|
  {
    var init := starts[..|starts| - 1];
    if k < |init| { OneCalls(b, init, k); } else { NoneCalls(b, init); }
  }

  lemma CallsAre(b: Bridge, start: (int, Block))
    requires Known(b, start.1)
    ensures Calls(b, start) <==> IsCall(b, start)
    ensures Output(b, start) <==> KindOf(b, start.1).StructuredKind?
    ensures Calls(b, start) && !b.mapping[start.1.name].custom <==> KindOf(b, start.1).FunctionKind?
  {
  }

  lemma BrokenAre(b: Bridge, p: seq<Source>, k: nat)
    requires AllKnown(b, Starts(p)) && k < |Starts(p)|
    ensures Calls(b, Starts(p)[k]) || Output(b, Starts(p)[k]) ==>
      (Broken(b, JsonOf(p, Starts(p)[k].0)) <==> A.Unparsed(b, p, Starts(p)[k]))
  {
    if Starts(p)[k].1.ToolBlock? { ArgumentsAre(b, p, Starts(p)[k].0, Starts(p)[k].1); }
  }

  ghost predicate Mends(b: Bridge, p: seq<Source>, k: nat)
    requires k < |Starts(p)| && Known(b, Starts(p)[k].1) && b.repair.Some?
  {
    KindOf(b, Starts(p)[k].1).FunctionKind? && b.repair.value(Starts(p)[k].1.name, JsonOf(p, Starts(p)[k].0)).Some?
  }

  lemma MendedIff(b: Bridge, p: seq<Source>)
    requires WellFormed(p) && AllKnown(b, Starts(p))
    ensures (exists k :: OneMended(b, p, k)) <==>
      b.repair.Some? && |CallsIn(b, Starts(p))| == 1 && ReasonOf(p) == ToolUse
      && exists k: nat :: k < |Starts(p)| && Mends(b, p, k)
  {
    forall k | 0 <= k < |Starts(p)|
      ensures Calls(b, Starts(p)[k]) <==> IsCall(b, Starts(p)[k])
    {
      CallsAre(b, Starts(p)[k]);
    }
    if k: nat :| OneMended(b, p, k) {
      CallsAre(b, Starts(p)[k]);
      OneCalls(b, Starts(p), k);
      assert Mends(b, p, k);
    }
    if b.repair.Some? && |CallsIn(b, Starts(p))| == 1 && ReasonOf(p) == ToolUse {
      if k: nat :| k < |Starts(p)| && Mends(b, p, k) {
        CallsAre(b, Starts(p)[k]);
        StartIsCall(b, Starts(p), k);
        forall j | 0 <= j < |Starts(p)| && j != k
          ensures !Calls(b, Starts(p)[j])
        {
          OnlyCall(b, p, k, j);
        }
        assert OneMended(b, p, k);
      }
    }
  }

  lemma MendsThere(b: Bridge, p: seq<Source>)
    requires AllKnown(b, Starts(p)) && b.repair.Some?
    ensures (exists k: nat :: k < |Starts(p)| && Mends(b, p, k)) <==>
      exists k :: 0 <= k < |Starts(p)| && KindOf(b, Starts(p)[k].1).FunctionKind?
                  && b.repair.value(Starts(p)[k].1.name, JsonOf(p, Starts(p)[k].0)).Some?
  {
    if k: nat :| k < |Starts(p)| && Mends(b, p, k) {
      assert KindOf(b, Starts(p)[k].1).FunctionKind?;
    }
    if exists k :: 0 <= k < |Starts(p)| && KindOf(b, Starts(p)[k].1).FunctionKind?
                   && b.repair.value(Starts(p)[k].1.name, JsonOf(p, Starts(p)[k].0)).Some?
    {
      var k :| 0 <= k < |Starts(p)| && KindOf(b, Starts(p)[k].1).FunctionKind?
        && b.repair.value(Starts(p)[k].1.name, JsonOf(p, Starts(p)[k].0)).Some?;
      assert Mends(b, p, k);
    }
  }

  lemma WholeIff(b: Bridge, p: seq<Source>)
    requires WellFormed(p) && AllKnown(b, Starts(p))
    ensures Whole(b, p) <==> A.WholeMessage(b, p)
  {
    MendedIff(b, p);
    if b.repair.Some? { MendsThere(b, p); }
    forall k | 0 <= k < |Starts(p)|
      ensures Calls(b, Starts(p)[k]) <==> IsCall(b, Starts(p)[k])
      ensures Output(b, Starts(p)[k]) <==> KindOf(b, Starts(p)[k].1).StructuredKind?
      ensures Calls(b, Starts(p)[k]) || Output(b, Starts(p)[k]) ==>
        (Broken(b, JsonOf(p, Starts(p)[k].0)) <==> A.Unparsed(b, p, Starts(p)[k]))
    {
      CallsAre(b, Starts(p)[k]);
      BrokenAre(b, p, k);
    }
  }

  lemma FittingKnown(b: Bridge, p: seq<Source>)
    requires forall i | 0 <= i < |p| :: Fits(b, p[..i], p[i])
    ensures AllKnown(b, Starts(p))
  {
    forall k | 0 <= k < |Starts(p)|
      ensures Known(b, Starts(p)[k].1)
    {
      var i := StartsComeFrom(p, k);
      assert Fits(b, p[..i], p[i]);
    }
  }

  // A well-formed message is translated if and only if every event fits what came before it and
  // the message as a whole is complete.
  lemma TranslatedExactly(b: Bridge, p: seq<Source>)
    requires WellFormed(p) && MessageStop !in p
    ensures Translate(b, p + [MessageStop]).Finished? <==>
      (forall i | 0 <= i < |p| :: Fits(b, p[..i], p[i])) && Whole(b, p)
  {
    A.TranslatedIff(b, p);
    forall i | 0 <= i < |p|
      ensures Fits(b, p[..i], p[i]) <==> A.Fits(b, p[..i], p[i])
    {
      FitsIff(b, p[..i], p[i]);
    }
    if forall i | 0 <= i < |p| :: Fits(b, p[..i], p[i]) {
      FittingKnown(b, p);
      WholeIff(b, p);
    }
  }
}
