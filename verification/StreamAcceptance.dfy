// Exactly which upstream messages are translated: a condition on the message as a
// whole, without the translator's state.
module StreamAcceptance {
  import opened Prelude
  import opened Wire
  import opened StreamTranslation
  import opened StreamMeaning

  // The event fits the blocks begun before it.
  ghost predicate Fits(b: Bridge, p: seq<Source>, e: Source) {
    match e
    case Ping => true
    case MessageStart => true
    case MessageDelta(_) => true
    case BlockStart(_, block) => block.ThinkingBlock? || Known(b, block)
    case BlockDelta(u, delta) => exists block :: BlockStart(u, block) in p && DeltaFits(block, delta)
    case BlockStop(u) => exists block :: BlockStart(u, block) in p && StopFits(b, p, u, block)
    case _ => false
  }

  predicate DeltaFits(block: Block, delta: Delta) {
    if block.ThinkingBlock? then delta.ThinkingDelta?
    else if block.TextBlock? then delta.TextDelta?
    else delta.JsonDelta?
  }

  // Arguments that parse must suit their tool; arguments that do not parse wait for
  // the end of the message.
  predicate StopFits(b: Bridge, p: seq<Source>, u: int, block: Block) {
    block.ToolBlock? ==>
      Known(b, block) && (ToolText(b, p, u, block).Some? || ArgumentsOf(b, p, u, block).None?)
  }

  ghost predicate AllFit(b: Bridge, p: seq<Source>) {
    forall i | 0 <= i < |p| :: Fits(b, p[..i], p[i])
  }

  predicate Unparsed(b: Bridge, p: seq<Source>, start: (int, Block)) {
    start.1.ToolBlock? && ArgumentsOf(b, p, start.0, start.1).None?
  }

  // At most one call is broken, it is the only call, and the repair mends it.
  ghost predicate CallsMended(b: Bridge, p: seq<Source>)
    requires AllKnown(b, Starts(p))
  {
    var calls := CallsIn(b, Starts(p));
    (forall k | 0 <= k < |Starts(p)| && IsCall(b, Starts(p)[k]) :: !Unparsed(b, p, Starts(p)[k]))
    || (b.repair.Some? && |calls| == 1 && ReasonOf(p) == ToolUse
        && exists k :: 0 <= k < |Starts(p)| && KindOf(b, Starts(p)[k].1).FunctionKind?
                       && b.repair.value(Starts(p)[k].1.name, JsonOf(p, Starts(p)[k].0)).Some?)
  }

  ghost predicate WholeMessage(b: Bridge, p: seq<Source>)
    requires AllKnown(b, Starts(p))
  {
    && MessageStart in p && Starts(p) != []
    && ReasonOf(p) in {EndTurn, ToolUse, StopSequence}
    && (forall i | 0 <= i < |p| && p[i].BlockStart? :: Stopped(p, p[i].index))
    && (forall k | 0 <= k < |Starts(p)| && KindOf(b, Starts(p)[k].1).StructuredKind? :: !Unparsed(b, p, Starts(p)[k]))
    && CallsMended(b, p)
  }

  // ---------------------------------------------------------------- reading the blocks back

  lemma {:induction false} VisibleIsStart(p: seq<Source>, i: nat) returns (k: nat)
    requires i < |p| && p[i].BlockStart? && !p[i].block.ThinkingBlock?
    ensures k < |Starts(p)| && Starts(p)[k] == (p[i].index, p[i].block)
  {
    var init := p[..|p| - 1];
    if i < |init| {
      k := VisibleIsStart(init, i);
    } else {
      k := |Starts(init)|;
    }
  }

  lemma OneBlock(p: seq<Source>, u: int, x: Block, y: Block)
    requires WellFormed(p) && BlockStart(u, x) in p && BlockStart(u, y) in p
    ensures x == y
  {
    var i :| 0 <= i < |p| && p[i] == BlockStart(u, x);
    var j :| 0 <= j < |p| && p[j] == BlockStart(u, y);
    assert i == j;
  }

  // The block a slot belongs to.
  lemma SlotBlock(b: Bridge, p: seq<Source>, s: State, out: seq<Event>, u: int) returns (block: Block)
    requires WellFormed(p) && Inv(b, p, s, out) && u in s.slots
    ensures BlockStart(u, block) in p
    ensures s.slots[u].Thinking? <==> block.ThinkingBlock?
    ensures s.slots[u].Open? ==> s.slots[u].at < |Starts(p)| && Starts(p)[s.slots[u].at] == (u, block)
  {
    if s.slots[u].Open? {
      var i := StartsComeFrom(p, s.slots[u].at);
      block := p[i].block;
    } else {
      var i :| 0 <= i < |p| && p[i].BlockStart? && p[i].index == u;
      block := p[i].block;
      InvPlaces(b, p, s, out);
      if !block.ThinkingBlock? {
        var _ := VisibleIsStart(p, i);
      }
    }
  }

  lemma BegunIffSlot(b: Bridge, p: seq<Source>, s: State, out: seq<Event>, u: int, block: Block)
    requires Inv(b, p, s, out) && BlockStart(u, block) in p
    ensures u in s.slots
  {
    var i :| 0 <= i < |p| && p[i] == BlockStart(u, block);
  }

  lemma DeltaIff(b: Bridge, p: seq<Source>, s: State, out: seq<Event>, e: Source)
    requires WellFormed(p) && Inv(b, p, s, out) && e.BlockDelta?
    ensures Step(b, s, out, e).Going? <==> Fits(b, p, e)
  {
    if e.index in s.slots {
      var block := SlotBlock(b, p, s, out, e.index);
      if s.slots[e.index].Open? {
        assert BlockOk(b, p, s, out, s.slots[e.index].at);
      }
      assert Step(b, s, out, e).Going? <==> DeltaFits(block, e.delta);
      forall other | BlockStart(e.index, other) in p
        ensures other == block
      {
        OneBlock(p, e.index, block, other);
      }
    } else {
      forall other
        ensures BlockStart(e.index, other) !in p
      {
        if BlockStart(e.index, other) in p {
          BegunIffSlot(b, p, s, out, e.index, other);
        }
      }
    }
  }

  lemma OpenStopIff(b: Bridge, p: seq<Source>, s: State, out: seq<Event>, u: int, block: Block)
    requires Inv(b, p, s, out) && u in s.slots && s.slots[u].Open? && s.slots[u].at < |Starts(p)|
    requires Starts(p)[s.slots[u].at] == (u, block)
    ensures Stop(b, s, out, u).Going? <==> StopFits(b, p, u, block)
  {
    assert BlockOk(b, p, s, out, s.slots[u].at);
  }

  lemma StopIff(b: Bridge, p: seq<Source>, s: State, out: seq<Event>, e: Source)
    requires WellFormed(p) && Inv(b, p, s, out) && e.BlockStop?
    ensures Step(b, s, out, e).Going? <==> Fits(b, p, e)
  {
    if e.index in s.slots {
      var block := SlotBlock(b, p, s, out, e.index);
      if s.slots[e.index].Open? {
        OpenStopIff(b, p, s, out, e.index, block);
      }
      forall other | BlockStart(e.index, other) in p
        ensures other == block
      {
        OneBlock(p, e.index, block, other);
      }
    } else {
      forall other
        ensures BlockStart(e.index, other) !in p
      {
        if BlockStart(e.index, other) in p {
          BegunIffSlot(b, p, s, out, e.index, other);
        }
      }
    }
  }

  lemma StepIff(b: Bridge, p: seq<Source>, s: State, out: seq<Event>, e: Source)
    requires WellFormed(p) && Inv(b, p, s, out)
    ensures Step(b, s, out, e).Going? <==> Fits(b, p, e)
  {
    if e.BlockDelta? {
      DeltaIff(b, p, s, out, e);
    } else if e.BlockStop? {
      StopIff(b, p, s, out, e);
    }
  }

  lemma {:induction false} GoingIff(b: Bridge, p: seq<Source>)
    requires WellFormed(p)
    ensures Run(b, p).Going? <==> AllFit(b, p)
  {
    if p != [] {
      var init, e := p[..|p| - 1], p[|p| - 1];
      assert p == init + [e];
      WellFormedPrefix(init, e);
      GoingIff(b, init);
      assert AllFit(b, p) <==> AllFit(b, init) && Fits(b, init, e) by {
        assert forall i | 0 <= i < |init| :: p[..i] == init[..i] && p[i] == init[i];
        assert p[..|init|] == init;
      }
      if Run(b, init).Going? {
        RunKeeps(b, init, Run(b, init).state, Run(b, init).out);
        StepIff(b, init, Run(b, init).state, Run(b, init).out, e);
      }
    }
  }

  // ---------------------------------------------------------------- the end of the message

  lemma ClosedIff(b: Bridge, p: seq<Source>, s: State, out: seq<Event>)
    requires WellFormed(p) && Inv(b, p, s, out)
    ensures AllClosed(s.slots) <==> forall i | 0 <= i < |p| && p[i].BlockStart? :: Stopped(p, p[i].index)
  {
    forall u | u in s.slots
      ensures s.slots[u].closed == Stopped(p, u)
    {
      if s.slots[u].Open? {
        assert BlockOk(b, p, s, out, s.slots[u].at);
      }
    }
    if AllClosed(s.slots) {
      assert forall i | 0 <= i < |p| && p[i].BlockStart? :: p[i].index in s.slots;
    } else {
      var u :| u in s.slots && !s.slots[u].closed;
      var i :| 0 <= i < |p| && p[i].BlockStart? && p[i].index == u;
    }
  }

  lemma DeferredIff(b: Bridge, p: seq<Source>, s: State, out: seq<Event>)
    requires Inv(b, p, s, out) && AllClosed(s.slots)
    ensures s.deferred <==>
      exists k :: 0 <= k < |Starts(p)| && KindOf(b, Starts(p)[k].1).StructuredKind? && Unparsed(b, p, Starts(p)[k])
  {
    if s.deferred {
      var k :| 0 <= k < |Starts(p)| && BadNow(b, p, Starts(p)[k].0, Starts(p)[k].1)
        && KindOf(b, Starts(p)[k].1).StructuredKind?;
      assert Unparsed(b, p, Starts(p)[k]);
    }
    if k :| 0 <= k < |Starts(p)| && KindOf(b, Starts(p)[k].1).StructuredKind? && Unparsed(b, p, Starts(p)[k]) {
      assert BlockOk(b, p, s, out, k);
    }
  }

  lemma BadIff(b: Bridge, p: seq<Source>, s: State, out: seq<Event>)
    requires Inv(b, p, s, out) && AllClosed(s.slots)
    ensures SomeBad(s, CallsIn(b, Starts(p))) <==>
      exists k :: 0 <= k < |Starts(p)| && IsCall(b, Starts(p)[k]) && Unparsed(b, p, Starts(p)[k])
  {
    var calls := CallsIn(b, Starts(p));
    if SomeBad(s, calls) {
      var u :| u in calls && u in s.slots && s.slots[u].Open? && s.slots[u].bad;
      var i :| 0 <= i < |calls| && calls[i] == u;
      var k := CallIsStart(b, Starts(p), i);
      assert BlockOk(b, p, s, out, k);
      assert IsCall(b, Starts(p)[k]) && Unparsed(b, p, Starts(p)[k]);
    }
    if k :| 0 <= k < |Starts(p)| && IsCall(b, Starts(p)[k]) && Unparsed(b, p, Starts(p)[k]) {
      StartIsCall(b, Starts(p), k);
      assert BlockOk(b, p, s, out, k);
    }
  }

  lemma RepairIff(b: Bridge, p: seq<Source>, s: State, out: seq<Event>)
    requires WellFormed(p) && Inv(b, p, s, out) && b.repair.Some?
    requires |CallsIn(b, Starts(p))| == 1
    ensures var u := CallsIn(b, Starts(p))[0];
      && u in s.slots && s.slots[u].Open?
      && (s.slots[u].kind.FunctionKind? && b.repair.value(s.slots[u].wire, s.slots[u].json).Some? <==>
          exists k :: 0 <= k < |Starts(p)| && KindOf(b, Starts(p)[k].1).FunctionKind?
                      && b.repair.value(Starts(p)[k].1.name, JsonOf(p, Starts(p)[k].0)).Some?)
  {
    var u := CallsIn(b, Starts(p))[0];
    var at := CallIsStart(b, Starts(p), 0);
    assert BlockOk(b, p, s, out, at);
    forall k | 0 <= k < |Starts(p)| && k != at
      ensures !KindOf(b, Starts(p)[k].1).FunctionKind?
    {
      OnlyCall(b, p, at, k);
    }
  }

  lemma CompleteIff(b: Bridge, p: seq<Source>, s: State, out: seq<Event>)
    requires WellFormed(p) && Inv(b, p, s, out)
    ensures Complete(s) <==>
      && MessageStart in p && Starts(p) != []
      && ReasonOf(p) in {EndTurn, ToolUse, StopSequence}
      && (forall i | 0 <= i < |p| && p[i].BlockStart? :: Stopped(p, p[i].index))
      && (forall k | 0 <= k < |Starts(p)| && KindOf(b, Starts(p)[k].1).StructuredKind? :: !Unparsed(b, p, Starts(p)[k]))
  {
    ClosedIff(b, p, s, out);
    if AllClosed(s.slots) { DeferredIff(b, p, s, out); }
  }

  lemma MendIff(b: Bridge, p: seq<Source>, s: State, out: seq<Event>)
    requires WellFormed(p) && Inv(b, p, s, out) && Complete(s)
    ensures Conclude(b, s, out).Finished? <==> CallsMended(b, p)
  {
    BadIff(b, p, s, out);
    if b.repair.Some? && |CallsIn(b, Starts(p))| == 1 {
      RepairIff(b, p, s, out);
      BlockBefore(b, p, s, out, CallsIn(b, Starts(p))[0]);
    }
    CallsIff(b, p, s, out);
  }

  lemma ConcludeIff(b: Bridge, p: seq<Source>, s: State, out: seq<Event>)
    requires WellFormed(p) && Inv(b, p, s, out)
    ensures Conclude(b, s, out).Finished? <==> WholeMessage(b, p)
  {
    CompleteIff(b, p, s, out);
    if Complete(s) { MendIff(b, p, s, out); }
  }

  lemma CallsIff(b: Bridge, p: seq<Source>, s: State, out: seq<Event>)
    requires Inv(b, p, s, out) && AllClosed(s.slots)
    ensures (forall k | 0 <= k < |Starts(p)| && IsCall(b, Starts(p)[k]) :: !Unparsed(b, p, Starts(p)[k]))
      <==> !SomeBad(s, CallsIn(b, Starts(p)))
  {
    BadIff(b, p, s, out);
  }

  lemma GoingConcludes(b: Bridge, p: seq<Source>, s: State, out: seq<Event>)
    requires WellFormed(p) && Run(b, p) == Going(s, out)
    ensures AllKnown(b, Starts(p)) && (Conclude(b, s, out).Finished? <==> WholeMessage(b, p))
  {
    RunKeeps(b, p, s, out);
    ConcludeIff(b, p, s, out);
  }

  // A well-formed message is translated if and only if every event fits the blocks
  // begun before it and the message as a whole is complete.
  lemma TranslatedIff(b: Bridge, p: seq<Source>)
    requires WellFormed(p) && MessageStop !in p
    ensures Translate(b, p + [MessageStop]).Finished? <==>
      AllFit(b, p) && AllKnown(b, Starts(p)) && WholeMessage(b, p)
  {
    assert (p + [MessageStop])[..|p|] == p;
    GoingIff(b, p);
    if Run(b, p).Going? {
      GoingConcludes(b, p, Run(b, p).state, Run(b, p).out);
    } else if Run(b, p).Finished? {
      var _ := FinishedAtStop(b, p, Run(b, p).out);
    }
  }
}
