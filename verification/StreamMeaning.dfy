// What a well-formed upstream message means as a whole, block by block, and that a
// successful translation says exactly that.
module StreamMeaning {
  import opened Prelude
  import opened Wire
  import opened StreamTranslation

  // ---------------------------------------------------------------- the batch reading of a stream

  // The visible blocks with their upstream indices, in start order.
  function Starts(p: seq<Source>): seq<(int, Block)> {
    if p == [] then []
    else Starts(p[..|p| - 1]) +
         (var e := p[|p| - 1]; if e.BlockStart? && !e.block.ThinkingBlock? then [(e.index, e.block)] else [])
  }

  function TextOf(p: seq<Source>, u: int): string {
    if p == [] then ""
    else TextOf(p[..|p| - 1], u) +
         (var e := p[|p| - 1]; if e.BlockDelta? && e.index == u && e.delta.TextDelta? then e.delta.text else "")
  }

  function JsonOf(p: seq<Source>, u: int): string {
    if p == [] then ""
    else JsonOf(p[..|p| - 1], u) +
         (var e := p[|p| - 1]; if e.BlockDelta? && e.index == u && e.delta.JsonDelta? then e.delta.partial else "")
  }

  predicate Stopped(p: seq<Source>, u: int) {
    BlockStop(u) in p
  }

  // Indices are not reused, a block stops once, and nothing follows its stop.
  ghost predicate WellFormed(p: seq<Source>) {
    && (forall i, j | 0 <= i < j < |p| && p[i].BlockStart? && p[j].BlockStart? :: p[i].index != p[j].index)
    && (forall i, j | 0 <= i < j < |p| && p[i].BlockStop? && (p[j].BlockStop? || p[j].BlockDelta?) ::
       p[i].index != p[j].index)
  }

  function ArgumentsOf(b: Bridge, p: seq<Source>, u: int, block: Block): Option<Json>
    requires block.ToolBlock?
  {
    Arguments(b, JsonOf(p, u), block.input)
  }

  // The text of a stopped tool block, when its arguments parse and suit its tool.
  function ToolText(b: Bridge, p: seq<Source>, u: int, block: Block): Option<string>
    requires block.ToolBlock? && Known(b, block)
  {
    match ArgumentsOf(b, p, u, block)
    case None => None
    case Some(args) => Rendered(b, KindOf(b, block), args)
  }

  function RepairedText(b: Bridge, p: seq<Source>, u: int, block: Block): string
    requires block.ToolBlock?
  {
    if b.repair.None? then ""
    else match b.repair.value(block.name, JsonOf(p, u))
      case None => ""
      case Some(args) => b.dump(args)
  }

  // One block of a whole message.
  function BlockMeaning(b: Bridge, p: seq<Source>, u: int, block: Block): Item
    requires Known(b, block)
  {
    var item := FirstItem(b, block).(completed := true);
    if block.TextBlock? then item.(text := block.text + TextOf(p, u))
    else match ToolText(b, p, u, block)
      case Some(text) => item.(text := text)
      case None => item.(text := RepairedText(b, p, u, block))
  }

  predicate AllKnown(b: Bridge, starts: seq<(int, Block)>) {
    forall k | 0 <= k < |starts| :: Known(b, starts[k].1)
  }

  function Meaning(b: Bridge, p: seq<Source>): seq<Item>
    requires AllKnown(b, Starts(p))
  {
    seq(|Starts(p)|, k requires 0 <= k < |Starts(p)| => BlockMeaning(b, p, Starts(p)[k].0, Starts(p)[k].1))
  }

  // ---------------------------------------------------------------- what was emitted

  function AddedIn(out: seq<Event>): seq<(nat, Item)> {
    if out == [] then []
    else AddedIn(out[..|out| - 1]) + (var e := out[|out| - 1]; if e.Added? then [(e.at, e.item)] else [])
  }

  function DoneAt(out: seq<Event>, k: nat): seq<Item> {
    if out == [] then []
    else DoneAt(out[..|out| - 1], k) + (var e := out[|out| - 1]; if e.Done? && e.at == k then [e.item] else [])
  }

  function TextAt(out: seq<Event>, k: nat): string {
    if out == [] then ""
    else TextAt(out[..|out| - 1], k) + (var e := out[|out| - 1]; if e.TextOut? && e.at == k then e.text else "")
  }

  lemma OutSnoc(out: seq<Event>, e: Event, k: nat)
    ensures AddedIn(out + [e]) == if e.Added? then AddedIn(out) + [(e.at, e.item)] else AddedIn(out)
    ensures DoneAt(out + [e], k) == if e.Done? && e.at == k then DoneAt(out, k) + [e.item] else DoneAt(out, k)
    ensures TextAt(out + [e], k) == if e.TextOut? && e.at == k then TextAt(out, k) + e.text else TextAt(out, k)
  {
    assert (out + [e])[..|out|] == out;
  }

  lemma HistorySnoc(p: seq<Source>, e: Source, u: int)
    ensures Starts(p + [e]) ==
      if e.BlockStart? && !e.block.ThinkingBlock? then Starts(p) + [(e.index, e.block)] else Starts(p)
    ensures TextOf(p + [e], u) ==
      if e.BlockDelta? && e.index == u && e.delta.TextDelta? then TextOf(p, u) + e.delta.text else TextOf(p, u)
    ensures JsonOf(p + [e], u) ==
      if e.BlockDelta? && e.index == u && e.delta.JsonDelta? then JsonOf(p, u) + e.delta.partial else JsonOf(p, u)
    ensures Stopped(p + [e], u) <==> Stopped(p, u) || e == BlockStop(u)
  {
    assert (p + [e])[..|p|] == p;
  }

  // ---------------------------------------------------------------- the invariant

  // The item of a block while the message is still running.
  function ItemNow(b: Bridge, p: seq<Source>, u: int, block: Block): Item
    requires Known(b, block)
  {
    var item := FirstItem(b, block);
    if block.TextBlock? then item.(text := block.text + TextOf(p, u), completed := Stopped(p, u))
    else if !Stopped(p, u) then item
    else match ToolText(b, p, u, block)
      case Some(text) => item.(text := text, completed := item.kind.StructuredKind?)
      case None => item
  }

  // What has been marked done for a block so far: messages only.
  function DoneNow(b: Bridge, p: seq<Source>, u: int, block: Block): seq<Item>
    requires Known(b, block)
  {
    var item := ItemNow(b, p, u, block);
    if Stopped(p, u)
      && (block.TextBlock? || (item.kind.StructuredKind? && ToolText(b, p, u, block).Some?)) then [item] else []
  }

  function TextNow(b: Bridge, p: seq<Source>, u: int, block: Block): string
    requires Known(b, block)
  {
    if block.TextBlock? then TextOf(p, u)
    else if KindOf(b, block).StructuredKind? && Stopped(p, u) && ToolText(b, p, u, block).Some?
    then ToolText(b, p, u, block).value else ""
  }

  predicate BadNow(b: Bridge, p: seq<Source>, u: int, block: Block)
    requires Known(b, block)
  {
    block.ToolBlock? && Stopped(p, u) && ArgumentsOf(b, p, u, block).None?
  }

  function SlotNow(b: Bridge, p: seq<Source>, k: nat, u: int, block: Block): Slot
    requires Known(b, block)
  {
    var input := if block.ToolBlock? then block.input else Object(map[]);
    Open(k, KindOf(b, block), JsonOf(p, u), input, Stopped(p, u),
         BadNow(b, p, u, block) && !KindOf(b, block).StructuredKind?, if block.ToolBlock? then block.name else "")
  }

  // A stopped tool block has arguments that suit it, or none that parse.
  predicate Suited(b: Bridge, p: seq<Source>, u: int, block: Block)
    requires Known(b, block)
  {
    block.ToolBlock? && Stopped(p, u) ==> ToolText(b, p, u, block).Some? || ArgumentsOf(b, p, u, block).None?
  }

  ghost predicate BlockOk(b: Bridge, p: seq<Source>, s: State, out: seq<Event>, k: nat)
    requires AllKnown(b, Starts(p)) && k < |Starts(p)|
  {
    var (u, block) := Starts(p)[k];
    && u in s.slots && s.slots[u] == SlotNow(b, p, k, u, block)
    && k < |s.output| && s.output[k] == ItemNow(b, p, u, block)
    && DoneAt(out, k) == DoneNow(b, p, u, block)
    && TextAt(out, k) == TextNow(b, p, u, block)
    && Suited(b, p, u, block)
    && (s.deferred <== BadNow(b, p, u, block) && KindOf(b, block).StructuredKind?)
  }

  ghost predicate Begun(p: seq<Source>, u: int) {
    exists i :: 0 <= i < |p| && p[i].BlockStart? && p[i].index == u
  }

  predicate Touches(e: Source, u: int) {
    (e.BlockDelta? || e.BlockStop?) && e.index == u
  }

  function AddedAll(b: Bridge, starts: seq<(int, Block)>): seq<(nat, Item)>
    requires AllKnown(b, starts)
  {
    seq(|starts|, k requires 0 <= k < |starts| => (k, FirstItem(b, starts[k].1)))
  }

  // The executable blocks in start order.
  function CallsIn(b: Bridge, starts: seq<(int, Block)>): seq<int>
    requires AllKnown(b, starts)
  {
    if starts == [] then []
    else CallsIn(b, starts[..|starts| - 1]) +
         (var (u, block) := starts[|starts| - 1]; if KindOf(b, block).Executable() then [u] else [])
  }

  function ReasonOf(p: seq<Source>): Reason {
    if p == [] then NoReason
    else
      var e := p[|p| - 1];
      if e.MessageDelta? && e.reason.Some? then e.reason.value else ReasonOf(p[..|p| - 1])
  }

  // The blocks the translator knows, seen from the whole stream.
  ghost predicate SlotsOk(p: seq<Source>, s: State) {
    && (forall u | u in s.slots :: Begun(p, u))
    && (forall u | u in s.slots && s.slots[u].Open? :: s.slots[u].at < |Starts(p)| && Starts(p)[s.slots[u].at].0 == u)
    && (forall u | u in s.slots && s.slots[u].Thinking? :: s.slots[u].closed == Stopped(p, u))
    && (forall i | 0 <= i < |p| && (p[i].BlockDelta? || p[i].BlockStop?) :: p[i].index in s.slots)
    && (forall i | 0 <= i < |p| && p[i].BlockStart? :: p[i].index in s.slots)
    && (forall u :: u in s.order <==> u in s.slots)
  }

  ghost predicate OutOk(out: seq<Event>, n: nat) {
    forall i | 0 <= i < |out| :: !out[i].Completed? && (out[i].Done? || out[i].TextOut? ==> out[i].at < n)
  }

  ghost predicate BlocksOk(b: Bridge, p: seq<Source>, s: State, out: seq<Event>)
    requires AllKnown(b, Starts(p))
  {
    forall k | 0 <= k < |Starts(p)| :: BlockOk(b, p, s, out, k)
  }

  ghost predicate Deferral(b: Bridge, p: seq<Source>, s: State)
    requires AllKnown(b, Starts(p))
  {
    s.deferred ==>
      (exists k ::
        0 <= k < |Starts(p)| && BadNow(b, p, Starts(p)[k].0, Starts(p)[k].1)
          && KindOf(b, Starts(p)[k].1).StructuredKind?)
  }

  ghost predicate Inv(b: Bridge, p: seq<Source>, s: State, out: seq<Event>) {
    && AllKnown(b, Starts(p))
    && |s.output| == |Starts(p)|
    && BlocksOk(b, p, s, out)
    && AddedIn(out) == AddedAll(b, Starts(p))
    && SlotsOk(p, s)
    && OutOk(out, |s.output|)
    && Executables(s.slots, s.order) == CallsIn(b, Starts(p))
    && s.started == (MessageStart in p)
    && s.reason == ReasonOf(p)
    && Deferral(b, p, s)
  }

  // ---------------------------------------------------------------- facts about histories

  lemma {:induction false} StartsComeFrom(p: seq<Source>, k: nat) returns (i: nat)
    requires k < |Starts(p)|
    ensures i < |p| && p[i] == BlockStart(Starts(p)[k].0, Starts(p)[k].1) && !Starts(p)[k].1.ThinkingBlock?
  {
    var init := p[..|p| - 1];
    if k < |Starts(init)| {
      i := StartsComeFrom(init, k);
    } else {
      i := |p| - 1;
    }
  }

  lemma WellFormedPrefix(p: seq<Source>, e: Source)
    requires WellFormed(p + [e])
    ensures WellFormed(p)
    ensures e.BlockStart? ==> !Begun(p, e.index)
    ensures (e.BlockStop? || e.BlockDelta?) ==> !Stopped(p, e.index)
  {
    var q := p + [e];
    assert forall i | 0 <= i < |p| :: q[i] == p[i];
    assert q[|p|] == e;
    if e.BlockStop? || e.BlockDelta? {
      assert forall i | 0 <= i < |p| && q[i].BlockStop? :: q[i].index != q[|p|].index;
    }
  }

  // Two visible blocks never share an index.
  lemma {:induction false} StartsDistinct(p: seq<Source>, k: nat, l: nat)
    requires WellFormed(p) && k < l < |Starts(p)|
    ensures Starts(p)[k].0 != Starts(p)[l].0
  {
    var init, e := p[..|p| - 1], p[|p| - 1];
    assert p == init + [e];
    WellFormedPrefix(init, e);
    if l < |Starts(init)| {
      StartsDistinct(init, k, l);
    } else {
      var i := StartsComeFrom(init, k);
      assert Begun(init, Starts(p)[k].0);
    }
  }

  lemma {:induction false} Untouched(p: seq<Source>, u: int)
    requires forall i | 0 <= i < |p| :: !Touches(p[i], u)
    ensures TextOf(p, u) == "" && JsonOf(p, u) == "" && !Stopped(p, u)
  {
    if p != [] {
      var init, e := p[..|p| - 1], p[|p| - 1];
      assert p == init + [e];
      assert !Touches(e, u);
      Untouched(init, u);
      HistorySnoc(init, e, u);
    }
  }

  // ---------------------------------------------------------------- frames

  lemma SameHistory(b: Bridge, p: seq<Source>, e: Source, k: nat, u: int, block: Block)
    requires Known(b, block) && !Touches(e, u)
    ensures var q := p + [e];
      && ItemNow(b, q, u, block) == ItemNow(b, p, u, block) && SlotNow(b, q, k, u, block) == SlotNow(b, p, k, u, block)
      && DoneNow(b, q, u, block) == DoneNow(b, p, u, block) && TextNow(b, q, u, block) == TextNow(b, p, u, block)
      && Suited(b, q, u, block) == Suited(b, p, u, block) && BadNow(b, q, u, block) == BadNow(b, p, u, block)
  {
    HistorySnoc(p, e, u);
  }

  // A block that the event does not touch stays right.
  lemma BlockFrame(b: Bridge, p: seq<Source>, e: Source, s: State, out: seq<Event>, t: State, more: seq<Event>, k: nat)
    requires AllKnown(b, Starts(p)) && AllKnown(b, Starts(p + [e])) && k < |Starts(p)| && BlockOk(b, p, s, out, k)
    requires !Touches(e, Starts(p)[k].0)
    requires k < |t.output| && t.output[k] == s.output[k]
    requires Starts(p)[k].0 in t.slots && t.slots[Starts(p)[k].0] == s.slots[Starts(p)[k].0]
    requires DoneAt(more, k) == DoneAt(out, k) && TextAt(more, k) == TextAt(out, k)
    requires s.deferred ==> t.deferred
    ensures k < |Starts(p + [e])| && Starts(p + [e])[k] == Starts(p)[k] && BlockOk(b, p + [e], t, more, k)
  {
    assert k < |Starts(p + [e])| && Starts(p + [e])[k] == Starts(p)[k] by { HistorySnoc(p, e, 0); }
    SameHistory(b, p, e, k, Starts(p)[k].0, Starts(p)[k].1);
  }

  lemma {:induction false} SameExecutables(slots: map<int, Slot>, more: map<int, Slot>, order: seq<int>)
    requires forall u | u in order :: u in slots && u in more
    requires forall u | u in order :: slots[u].Open? == more[u].Open?
    requires forall u | u in order && slots[u].Open? :: more[u].kind == slots[u].kind
    ensures Executables(more, order) == Executables(slots, order)
  {
    if order != [] {
      assert forall u | u in order[..|order| - 1] :: u in order;
      SameExecutables(slots, more, order[..|order| - 1]);
      assert order[|order| - 1] in order;
    }
  }

  // ---------------------------------------------------------------- steps

  // An event that concerns no block.
  lemma QuietOut(b: Bridge, s: State, out: seq<Event>, e: Source, t: State, more: seq<Event>)
    requires (e.Ping? || e.MessageStart? || e.MessageDelta?) && Step(b, s, out, e) == Going(t, more)
    ensures AddedIn(more) == AddedIn(out) && (more == out || more == out + [Created])
    ensures t == s.(started := s.started || e.MessageStart?,
                    reason := if e.MessageDelta? && e.reason.Some? then e.reason.value else s.reason)
  {
    OutSnoc(out, Created, 0);
  }

  lemma QuietStep(b: Bridge, p: seq<Source>, e: Source, s: State, out: seq<Event>, t: State, more: seq<Event>)
    requires Inv(b, p, s, out) && WellFormed(p + [e]) && (e.Ping? || e.MessageStart? || e.MessageDelta?)
    requires Step(b, s, out, e) == Going(t, more)
    ensures Inv(b, p + [e], t, more)
  {
    QuietOut(b, s, out, e, t, more);
    QuietTop(p, e, s);
    assert Starts(p + [e]) == Starts(p) && BlocksOk(b, p + [e], t, more) by { QuietBlocks(b, p, e, s, out, t, more); }
    assert SlotsOk(p + [e], t) by { QuietSlots(p, e, s, t); }
    assert Deferral(b, p + [e], t) by { DeferralKept(b, p, e, s, t); }
  }

  lemma QuietTop(p: seq<Source>, e: Source, s: State)
    ensures ReasonOf(p + [e]) == if e.MessageDelta? && e.reason.Some? then e.reason.value else ReasonOf(p)
    ensures MessageStart in p + [e] <==> MessageStart in p || e.MessageStart?
  {
    assert (p + [e])[..|p|] == p;
  }

  lemma QuietBlocks(b: Bridge, p: seq<Source>, e: Source, s: State, out: seq<Event>, t: State, more: seq<Event>)
    requires AllKnown(b, Starts(p)) && BlocksOk(b, p, s, out) && !e.BlockStart? && !e.BlockDelta? && !e.BlockStop?
    requires t.output == s.output && t.slots == s.slots && t.deferred == s.deferred
    requires more == out || more == out + [Created]
    ensures Starts(p + [e]) == Starts(p) && BlocksOk(b, p + [e], t, more)
  {
    HistorySnoc(p, e, 0);
    forall k | 0 <= k < |Starts(p)|
      ensures BlockOk(b, p + [e], t, more, k)
    {
      OutSnoc(out, Created, k);
      BlockFrame(b, p, e, s, out, t, more, k);
    }
  }

  lemma BegunOn(p: seq<Source>, e: Source, u: int)
    requires Begun(p, u)
    ensures Begun(p + [e], u)
  {
    var i :| 0 <= i < |p| && p[i].BlockStart? && p[i].index == u;
    assert (p + [e])[i] == p[i];
  }

  lemma QuietSlots(p: seq<Source>, e: Source, s: State, t: State)
    requires SlotsOk(p, s) && !e.BlockStart? && !e.BlockDelta? && !e.BlockStop?
    requires t.slots == s.slots && t.order == s.order
    ensures SlotsOk(p + [e], t)
  {
    HistorySnoc(p, e, 0);
    forall u | u in s.slots
      ensures Begun(p + [e], u) && Stopped(p + [e], u) == Stopped(p, u)
    {
      BegunOn(p, e, u);
      HistorySnoc(p, e, u);
    }
  }

  lemma DeferralKept(b: Bridge, p: seq<Source>, e: Source, s: State, t: State)
    requires WellFormed(p + [e]) && AllKnown(b, Starts(p)) && Deferral(b, p, s) && t.deferred == s.deferred
    requires !e.BlockStart? || e.block.ThinkingBlock? || Known(b, e.block)
    ensures AllKnown(b, Starts(p + [e])) && Deferral(b, p + [e], t)
  {
    HistorySnoc(p, e, 0);
    if t.deferred {
      var k :| 0 <= k < |Starts(p)| && BadNow(b, p, Starts(p)[k].0, Starts(p)[k].1)
        && KindOf(b, Starts(p)[k].1).StructuredKind?;
      BadStays(b, p, e, Starts(p)[k].0, Starts(p)[k].1);
      assert Starts(p + [e])[k] == Starts(p)[k];
    }
  }

  lemma BadStays(b: Bridge, p: seq<Source>, e: Source, u: int, block: Block)
    requires WellFormed(p + [e]) && Known(b, block) && BadNow(b, p, u, block)
    ensures BadNow(b, p + [e], u, block)
  {
    WellFormedPrefix(p, e);
    HistorySnoc(p, e, u);
  }

  // ---------------------------------------------------------------- a block starts

  lemma StartedFresh(p: seq<Source>, e: Source, s: State)
    requires SlotsOk(p, s) && WellFormed(p + [e]) && e.BlockStart?
    ensures e.index !in s.slots
    ensures JsonOf(p, e.index) == "" && TextOf(p, e.index) == "" && !Stopped(p, e.index)
  {
    WellFormedPrefix(p, e);
    assert e.index !in s.slots;
    assert forall i | 0 <= i < |p| :: !Touches(p[i], e.index);
    Untouched(p, e.index);
  }

  lemma StartedSlots(p: seq<Source>, e: Source, s: State, t: State, slot: Slot)
    requires SlotsOk(p, s) && e.BlockStart? && e.index !in s.slots && !Stopped(p, e.index)
    requires t.slots == s.slots[e.index := slot] && t.order == s.order + [e.index]
    requires if e.block.ThinkingBlock? then slot == Thinking(false) else slot.Open? && slot.at == |Starts(p)|
    ensures SlotsOk(p + [e], t)
  {
    HistorySnoc(p, e, e.index);
    assert (p + [e])[|p|] == e;
    assert Begun(p + [e], e.index);
    forall u | u in s.slots
      ensures Begun(p + [e], u) && Stopped(p + [e], u) == Stopped(p, u)
    {
      BegunOn(p, e, u);
      HistorySnoc(p, e, u);
    }
  }

  lemma StartedBlocks(b: Bridge, p: seq<Source>, e: Source, s: State, out: seq<Event>, t: State, more: seq<Event>)
    requires AllKnown(b, Starts(p)) && AllKnown(b, Starts(p + [e])) && BlocksOk(b, p, s, out) && e.BlockStart?
    requires |s.output| == |Starts(p)| && e.index !in s.slots && t.deferred == s.deferred
    requires forall u | u in s.slots :: u in t.slots && t.slots[u] == s.slots[u]
    requires t.output == s.output || (|t.output| > |s.output| && t.output[..|s.output|] == s.output)
    requires more == out || (exists item: Item :: more == out + [Added(|s.output|, item)])
    ensures forall k | 0 <= k < |Starts(p)| :: k < |Starts(p + [e])| && BlockOk(b, p + [e], t, more, k)
  {
    forall k | 0 <= k < |Starts(p)|
      ensures k < |Starts(p + [e])| && BlockOk(b, p + [e], t, more, k)
    {
      if more != out {
        var item: Item :| more == out + [Added(|s.output|, item)];
        OutSnoc(out, Added(|s.output|, item), k);
      }
      if |t.output| > |s.output| { assert t.output[..|s.output|][k] == t.output[k]; }
      BlockFrame(b, p, e, s, out, t, more, k);
    }
  }

  lemma NothingYet(out: seq<Event>, n: nat, k: nat)
    requires OutOk(out, n) && n <= k
    ensures DoneAt(out, k) == [] && TextAt(out, k) == ""
  {
    if out != [] {
      var init := out[..|out| - 1];
      assert forall i | 0 <= i < |init| :: init[i] == out[i];
      NothingYet(init, n, k);
      assert out[|out| - 1].Done? || out[|out| - 1].TextOut? ==> out[|out| - 1].at < n;
    }
  }

  lemma NewBlockHistory(b: Bridge, p: seq<Source>, e: Source, k: nat)
    requires e.BlockStart? && !e.block.ThinkingBlock? && Known(b, e.block)
    requires JsonOf(p, e.index) == "" && TextOf(p, e.index) == "" && !Stopped(p, e.index)
    ensures var q := p + [e];
      && ItemNow(b, q, e.index, e.block) == FirstItem(b, e.block)
      && SlotNow(b, q, k, e.index, e.block) == FirstSlot(b, e.block, k)
      && DoneNow(b, q, e.index, e.block) == [] && TextNow(b, q, e.index, e.block) == ""
      && Suited(b, q, e.index, e.block) && !BadNow(b, q, e.index, e.block)
  {
    HistorySnoc(p, e, e.index);
    assert e.block.TextBlock? ==> e.block.text + "" == e.block.text;
  }

  // The state after a visible block started.
  ghost predicate StartedAs(b: Bridge, s: State, out: seq<Event>, e: Source, t: State, more: seq<Event>) {
    && e.BlockStart? && !e.block.ThinkingBlock? && Known(b, e.block) && e.index !in s.slots
    && t == s.(slots := s.slots[e.index := FirstSlot(b, e.block, |s.output|)], order := s.order + [e.index],
               output := s.output + [FirstItem(b, e.block)])
    && more == out + [Added(|s.output|, FirstItem(b, e.block))]
  }

  lemma StartedBlock(b: Bridge, p: seq<Source>, e: Source, s: State, out: seq<Event>, t: State, more: seq<Event>)
    requires AllKnown(b, Starts(p)) && |s.output| == |Starts(p)| && OutOk(out, |s.output|)
    requires StartedAs(b, s, out, e, t, more)
    requires JsonOf(p, e.index) == "" && TextOf(p, e.index) == "" && !Stopped(p, e.index)
    requires AllKnown(b, Starts(p + [e])) && Starts(p + [e]) == Starts(p) + [(e.index, e.block)]
    ensures BlockOk(b, p + [e], t, more, |Starts(p)|)
  {
    var k := |Starts(p)|;
    assert Starts(p + [e])[k] == (e.index, e.block);
    FirstOutput(b, s, out, e, k, more);
    NewBlockHistory(b, p, e, k);
  }

  lemma FirstOutput(b: Bridge, s: State, out: seq<Event>, e: Source, k: nat, more: seq<Event>)
    requires e.BlockStart? && Known(b, e.block) && k == |s.output| && OutOk(out, k)
    requires more == out + [Added(k, FirstItem(b, e.block))]
    ensures DoneAt(more, k) == [] && TextAt(more, k) == ""
  {
    NothingYet(out, |s.output|, k);
    OutSnoc(out, Added(k, FirstItem(b, e.block)), k);
  }

  lemma BlocksJoin(b: Bridge, q: seq<Source>, t: State, more: seq<Event>, n: nat)
    requires AllKnown(b, Starts(q)) && |Starts(q)| == n + 1
    requires forall k | 0 <= k < n :: BlockOk(b, q, t, more, k)
    requires BlockOk(b, q, t, more, n)
    ensures BlocksOk(b, q, t, more)
  {
    forall k | 0 <= k < |Starts(q)|
      ensures BlockOk(b, q, t, more, k)
    {
      if k == n {
      } else {
        assert BlockOk(b, q, t, more, k);
      }
    }
  }

  lemma VisibleBlocks(b: Bridge, p: seq<Source>, e: Source, s: State, out: seq<Event>, t: State, more: seq<Event>)
    requires AllKnown(b, Starts(p)) && BlocksOk(b, p, s, out) && |s.output| == |Starts(p)| && OutOk(out, |s.output|)
    requires StartedAs(b, s, out, e, t, more)
    requires JsonOf(p, e.index) == "" && TextOf(p, e.index) == "" && !Stopped(p, e.index)
    requires AllKnown(b, Starts(p + [e])) && Starts(p + [e]) == Starts(p) + [(e.index, e.block)]
    ensures BlocksOk(b, p + [e], t, more)
  {
    assert t.output[..|s.output|] == s.output;
    StartedBlocks(b, p, e, s, out, t, more);
    StartedBlock(b, p, e, s, out, t, more);
    BlocksJoin(b, p + [e], t, more, |Starts(p)|);
  }

  lemma StartedAdded(b: Bridge, starts: seq<(int, Block)>, last: (int, Block))
    requires AllKnown(b, starts) && Known(b, last.1)
    ensures AllKnown(b, starts + [last])
    ensures AddedAll(b, starts + [last]) == AddedAll(b, starts) + [(|starts|, FirstItem(b, last.1))]
  {
    var l, r := AddedAll(b, starts + [last]), AddedAll(b, starts) + [(|starts|, FirstItem(b, last.1))];
    assert |l| == |r|;
    assert forall k | 0 <= k < |starts| :: (starts + [last])[k] == starts[k];
    assert forall k | 0 <= k < |l| :: l[k] == r[k];
  }

  lemma StartedCalls(b: Bridge, starts: seq<(int, Block)>, e: Source, s: State, t: State)
    requires AllKnown(b, starts) && Executables(s.slots, s.order) == CallsIn(b, starts)
    requires e.BlockStart? && !e.block.ThinkingBlock? && Known(b, e.block) && e.index !in s.slots
    requires forall u | u in s.order :: u in s.slots
    requires t.slots == s.slots[e.index := FirstSlot(b, e.block, |starts|)] && t.order == s.order + [e.index]
    ensures var more := starts + [(e.index, e.block)];
      AllKnown(b, more) && Executables(t.slots, t.order) == CallsIn(b, more)
  {
    assert (s.order + [e.index])[..|s.order|] == s.order;
    SameExecutables(s.slots, t.slots, s.order);
    assert (starts + [(e.index, e.block)])[..|starts|] == starts;
  }

  // What the listing of events says after a visible start.
  lemma StartedListing(b: Bridge, starts: seq<(int, Block)>, s: State, out: seq<Event>, e: Source, t: State,
                       more: seq<Event>)
    requires AllKnown(b, starts) && |s.output| == |starts| && StartedAs(b, s, out, e, t, more)
    requires AddedIn(out) == AddedAll(b, starts)
    ensures var q := starts + [(e.index, e.block)]; AllKnown(b, q) && AddedIn(more) == AddedAll(b, q)
  {
    OutSnoc(out, Added(|s.output|, FirstItem(b, e.block)), 0);
    StartedAdded(b, starts, (e.index, e.block));
  }

  lemma StartIs(b: Bridge, s: State, out: seq<Event>, e: Source, t: State, more: seq<Event>)
    requires e.BlockStart? && !e.block.ThinkingBlock? && e.index !in s.slots && Step(b, s, out, e) == Going(t, more)
    ensures StartedAs(b, s, out, e, t, more)
  {
  }

  lemma VisibleStartStep(b: Bridge, p: seq<Source>, e: Source, s: State, out: seq<Event>, t: State, more: seq<Event>)
    requires Inv(b, p, s, out) && WellFormed(p + [e]) && e.BlockStart? && !e.block.ThinkingBlock?
    requires Step(b, s, out, e) == Going(t, more)
    ensures Inv(b, p + [e], t, more)
  {
    StartedFresh(p, e, s);
    StartIs(b, s, out, e, t, more);
    assert Starts(p + [e]) == Starts(p) + [(e.index, e.block)] by { HistorySnoc(p, e, e.index); }
    StartedListing(b, Starts(p), s, out, e, t, more);
    StartedCalls(b, Starts(p), e, s, t);
    assert SlotsOk(p + [e], t) by { StartedSlots(p, e, s, t, FirstSlot(b, e.block, |Starts(p)|)); }
    assert Deferral(b, p + [e], t) by { DeferralKept(b, p, e, s, t); }
    assert BlocksOk(b, p + [e], t, more) by { VisibleBlocks(b, p, e, s, out, t, more); }
    QuietTop(p, e, s);
  }

  lemma ThinkingIs(b: Bridge, s: State, out: seq<Event>, e: Source, t: State, more: seq<Event>)
    requires e.BlockStart? && e.block.ThinkingBlock? && e.index !in s.slots && Step(b, s, out, e) == Going(t, more)
    ensures t == s.(slots := s.slots[e.index := Thinking(false)], order := s.order + [e.index]) && more == out
  {
  }

  lemma ThinkingLists(s: State, index: int)
    requires index !in s.slots && forall u | u in s.order :: u in s.slots
    ensures Executables(s.slots[index := Thinking(false)], s.order + [index]) == Executables(s.slots, s.order)
  {
    assert (s.order + [index])[..|s.order|] == s.order;
    SameExecutables(s.slots, s.slots[index := Thinking(false)], s.order);
  }

  lemma ThinkingStartStep(b: Bridge, p: seq<Source>, e: Source, s: State, out: seq<Event>, t: State, more: seq<Event>)
    requires Inv(b, p, s, out) && WellFormed(p + [e]) && e.BlockStart? && e.block.ThinkingBlock?
    requires Step(b, s, out, e) == Going(t, more)
    ensures Inv(b, p + [e], t, more)
  {
    StartedFresh(p, e, s);
    ThinkingIs(b, s, out, e, t, more);
    ThinkingLists(s, e.index);
    assert Starts(p + [e]) == Starts(p) by { HistorySnoc(p, e, e.index); }
    assert SlotsOk(p + [e], t) by { StartedSlots(p, e, s, t, Thinking(false)); }
    assert Deferral(b, p + [e], t) by { DeferralKept(b, p, e, s, t); }
    assert BlocksOk(b, p + [e], t, more) by { StartedBlocks(b, p, e, s, out, t, more); }
    QuietTop(p, e, s);
  }

  // ---------------------------------------------------------------- a delta or a stop

  // Only the named block, its item and its events may change.
  ghost predicate TouchedOnly(s: State, out: seq<Event>, t: State, more: seq<Event>, u: int, at: nat) {
    && t.slots.Keys == s.slots.Keys && t.order == s.order && |t.output| == |s.output|
    && (forall v | v in s.slots && v != u :: t.slots[v] == s.slots[v])
    && (forall k | 0 <= k < |s.output| && k != at :: t.output[k] == s.output[k])
    && AddedIn(more) == AddedIn(out)
    && (forall k: nat | k != at :: DoneAt(more, k) == DoneAt(out, k) && TextAt(more, k) == TextAt(out, k))
    && (s.deferred ==> t.deferred)
    && t.started == s.started && t.reason == s.reason
  }

  lemma TouchedBlocks(b: Bridge, p: seq<Source>, e: Source, s: State, out: seq<Event>, t: State, more: seq<Event>,
                      at: nat)
    requires AllKnown(b, Starts(p)) && BlocksOk(b, p, s, out) && WellFormed(p) && (e.BlockDelta? || e.BlockStop?)
    requires |s.output| == |Starts(p)| && at < |Starts(p)| && Starts(p)[at].0 == e.index
    requires TouchedOnly(s, out, t, more, e.index, at)
    requires Starts(p + [e]) == Starts(p) && BlockOk(b, p + [e], t, more, at)
    ensures BlocksOk(b, p + [e], t, more)
  {
    forall k | 0 <= k < |Starts(p)| && k != at
      ensures BlockOk(b, p + [e], t, more, k)
    {
      if k < at { StartsDistinct(p, k, at); } else { StartsDistinct(p, at, k); }
      assert BlockOk(b, p, s, out, k);
      BlockFrame(b, p, e, s, out, t, more, k);
    }
  }

  lemma TouchedSlots(p: seq<Source>, e: Source, s: State, t: State)
    requires SlotsOk(p, s) && (e.BlockDelta? || e.BlockStop?) && e.index in s.slots
    requires t.slots.Keys == s.slots.Keys && t.order == s.order
    requires forall v | v in s.slots && v != e.index :: t.slots[v] == s.slots[v]
    requires s.slots[e.index].Open? ==> t.slots[e.index].Open? && t.slots[e.index].at == s.slots[e.index].at
    requires s.slots[e.index].Thinking? ==> t.slots[e.index] == Thinking(s.slots[e.index].closed || e.BlockStop?)
    ensures SlotsOk(p + [e], t)
  {
    HistorySnoc(p, e, 0);
    forall u | u in s.slots
      ensures Begun(p + [e], u) && (Stopped(p + [e], u) <==> Stopped(p, u) || e == BlockStop(u))
    {
      BegunOn(p, e, u);
      HistorySnoc(p, e, u);
    }
  }

  lemma TouchedStep(b: Bridge, p: seq<Source>, e: Source, s: State, out: seq<Event>, t: State, more: seq<Event>,
                    at: nat)
    requires Inv(b, p, s, out) && WellFormed(p + [e]) && (e.BlockDelta? || e.BlockStop?)
    requires e.index in s.slots && s.slots[e.index].Open? && at == s.slots[e.index].at
    requires e.index in t.slots && t.slots[e.index].Open? && t.slots[e.index].at == at
    requires t.slots[e.index].kind == s.slots[e.index].kind
    requires TouchedOnly(s, out, t, more, e.index, at)
    requires Starts(p + [e]) == Starts(p) && BlockOk(b, p + [e], t, more, at)
    requires OutOk(more, |t.output|) && Deferral(b, p + [e], t)
    ensures Inv(b, p + [e], t, more)
  {
    WellFormedPrefix(p, e);
    TouchedBlocks(b, p, e, s, out, t, more, at);
    TouchedSlots(p, e, s, t);
    SameExecutables(s.slots, t.slots, s.order);
    QuietTop(p, e, s);
  }

  lemma ThinkingBlocks(b: Bridge, p: seq<Source>, e: Source, s: State, out: seq<Event>, t: State)
    requires AllKnown(b, Starts(p)) && BlocksOk(b, p, s, out) && (e.BlockDelta? || e.BlockStop?)
    requires e.index in s.slots && s.slots[e.index].Thinking? && Starts(p + [e]) == Starts(p)
    requires t.output == s.output && t.deferred == s.deferred
    requires (forall u | u in s.slots && u != e.index :: u in t.slots && t.slots[u] == s.slots[u])
    ensures BlocksOk(b, p + [e], t, out)
  {
    forall k | 0 <= k < |Starts(p)|
      ensures BlockOk(b, p + [e], t, out, k)
    {
      assert BlockOk(b, p, s, out, k);
      BlockFrame(b, p, e, s, out, t, out, k);
    }
  }

  // A delta or stop of a reasoning block changes nothing that is seen.
  lemma ThinkingStep(b: Bridge, p: seq<Source>, e: Source, s: State, out: seq<Event>, t: State, more: seq<Event>)
    requires Inv(b, p, s, out) && WellFormed(p + [e]) && (e.BlockDelta? || e.BlockStop?)
    requires e.index in s.slots && s.slots[e.index].Thinking? && Step(b, s, out, e) == Going(t, more)
    ensures Inv(b, p + [e], t, more)
  {
    assert Starts(p + [e]) == Starts(p) by { HistorySnoc(p, e, e.index); }
    assert t == s.(slots := s.slots[e.index := Thinking(s.slots[e.index].closed || e.BlockStop?)]) && more == out;
    ThinkingBlocks(b, p, e, s, out, t);
    assert SlotsOk(p + [e], t) by { TouchedSlots(p, e, s, t); }
    assert Executables(t.slots, t.order) ==
      Executables(s.slots, s.order) by { SameExecutables(s.slots, t.slots, s.order); }
    assert Deferral(b, p + [e], t) by { DeferralKept(b, p, e, s, t); }
    QuietTop(p, e, s);
  }

  lemma OneEvent(s: State, out: seq<Event>, e: Event, at: nat)
    requires (e.Done? || e.TextOut?) && e.at == at
    ensures AddedIn(out + [e]) == AddedIn(out)
    ensures forall k: nat | k != at :: DoneAt(out + [e], k) == DoneAt(out, k) && TextAt(out + [e], k) == TextAt(out, k)
    ensures DoneAt(out + [e], at) == if e.Done? then DoneAt(out, at) + [e.item] else DoneAt(out, at)
    ensures TextAt(out + [e], at) == if e.TextOut? then TextAt(out, at) + e.text else TextAt(out, at)
  {
    OutSnoc(out, e, at);
    forall k: nat | k != at
      ensures DoneAt(out + [e], k) == DoneAt(out, k) && TextAt(out + [e], k) == TextAt(out, k)
    {
      OutSnoc(out, e, k);
    }
  }

  // What the block's record says before the event.
  lemma BlockBefore(b: Bridge, p: seq<Source>, s: State, out: seq<Event>, u: int)
    requires Inv(b, p, s, out) && u in s.slots && s.slots[u].Open?
    ensures var k := s.slots[u].at; k < |Starts(p)| && k < |s.output| && Starts(p)[k].0 == u && BlockOk(b, p, s, out, k)
  {
  }

  lemma TextDeltaHistory(b: Bridge, p: seq<Source>, e: Source, u: int, block: Block, k: nat)
    requires block.TextBlock? && e.BlockDelta? && e.delta.TextDelta? && e.index == u && !Stopped(p, u)
    ensures var item := ItemNow(b, p, u, block);
      ItemNow(b, p + [e], u, block) == item.(text := item.text + e.delta.text)
    ensures SlotNow(b, p + [e], k, u, block) == SlotNow(b, p, k, u, block)
    ensures DoneNow(b, p + [e], u, block) == DoneNow(b, p, u, block)
    ensures TextNow(b, p + [e], u, block) == TextNow(b, p, u, block) + e.delta.text
  {
    HistorySnoc(p, e, u);
    assert (block.text + TextOf(p, u)) + e.delta.text == block.text + (TextOf(p, u) + e.delta.text);
  }

  lemma TextDeltaBlock(b: Bridge, p: seq<Source>, e: Source, s: State, out: seq<Event>, at: nat)
    requires AllKnown(b, Starts(p)) && at < |Starts(p)| && BlockOk(b, p, s, out, at)
    requires e.BlockDelta? && e.delta.TextDelta? && !Stopped(p, e.index) && Starts(p)[at].0 == e.index
    requires s.slots[e.index].kind.TextKind?
    requires Starts(p + [e]) == Starts(p)
    ensures var t := PutItem(s, at, s.output[at].(text := s.output[at].text + e.delta.text));
      BlockOk(b, p + [e], t, out + [TextOut(at, e.delta.text)], at)
  {
    TextDeltaHistory(b, p, e, e.index, Starts(p)[at].1, at);
    OneEvent(s, out, TextOut(at, e.delta.text), at);
  }

  lemma TextTouches(b: Bridge, s: State, out: seq<Event>, u: int, text: string, t: State, more: seq<Event>, n: nat)
    requires u in s.slots && s.slots[u].Open? && Grow(s, out, u, TextDelta(text)) == Going(t, more)
    requires OutOk(out, n) && n == |s.output|
    ensures var at := s.slots[u].at;
      && s.slots[u].kind.TextKind? && at < |s.output|
      && TouchedOnly(s, out, t, more, u, at) && OutOk(more, |t.output|) && t.slots == s.slots
      && t.deferred == s.deferred
      && t == PutItem(s, at, s.output[at].(text := s.output[at].text + text)) && more == out + [TextOut(at, text)]
  {
    OneEvent(s, out, TextOut(s.slots[u].at, text), s.slots[u].at);
  }

  lemma TextDeltaStep(b: Bridge, p: seq<Source>, e: Source, s: State, out: seq<Event>, t: State, more: seq<Event>)
    requires Inv(b, p, s, out) && WellFormed(p + [e]) && e.BlockDelta? && e.delta.TextDelta?
    requires e.index in s.slots && s.slots[e.index].Open? && Step(b, s, out, e) == Going(t, more)
    ensures Inv(b, p + [e], t, more)
  {
    var at := s.slots[e.index].at;
    WellFormedPrefix(p, e);
    assert Starts(p + [e]) == Starts(p) by { HistorySnoc(p, e, e.index); }
    TextTouches(b, s, out, e.index, e.delta.text, t, more, |s.output|);
    BlockBefore(b, p, s, out, e.index);
    TextDeltaBlock(b, p, e, s, out, at);
    DeferralKept(b, p, e, s, t);
    TouchedStep(b, p, e, s, out, t, more, at);
  }

  lemma JsonDeltaBlock(b: Bridge, p: seq<Source>, e: Source, s: State, out: seq<Event>, at: nat)
    requires AllKnown(b, Starts(p)) && at < |Starts(p)| && BlockOk(b, p, s, out, at)
    requires e.BlockDelta? && e.delta.JsonDelta? && !Stopped(p, e.index) && Starts(p)[at].0 == e.index
    requires !s.slots[e.index].kind.TextKind?
    requires Starts(p + [e]) == Starts(p)
    ensures var t := PutSlot(s, e.index, s.slots[e.index].(json := s.slots[e.index].json + e.delta.partial));
      BlockOk(b, p + [e], t, out, at)
  {
    HistorySnoc(p, e, e.index);
  }

  lemma JsonTouches(b: Bridge, s: State, out: seq<Event>, u: int, partial: string, t: State, more: seq<Event>)
    requires u in s.slots && s.slots[u].Open? && Grow(s, out, u, JsonDelta(partial)) == Going(t, more) && u in s.order
    ensures !s.slots[u].kind.TextKind? && more == out
    ensures t == PutSlot(s, u, s.slots[u].(json := s.slots[u].json + partial))
    ensures TouchedOnly(s, out, t, more, u, s.slots[u].at) && t.output == s.output && t.deferred == s.deferred
    ensures t.slots[u].Open? && t.slots[u].at == s.slots[u].at && t.slots[u].kind == s.slots[u].kind
  {
  }

  lemma JsonDeltaStep(b: Bridge, p: seq<Source>, e: Source, s: State, out: seq<Event>, t: State, more: seq<Event>)
    requires Inv(b, p, s, out) && WellFormed(p + [e]) && e.BlockDelta? && e.delta.JsonDelta?
    requires e.index in s.slots && s.slots[e.index].Open? && Step(b, s, out, e) == Going(t, more)
    ensures Inv(b, p + [e], t, more)
  {
    var at := s.slots[e.index].at;
    WellFormedPrefix(p, e);
    assert Starts(p + [e]) == Starts(p) by { HistorySnoc(p, e, e.index); }
    JsonTouches(b, s, out, e.index, e.delta.partial, t, more);
    BlockBefore(b, p, s, out, e.index);
    JsonDeltaBlock(b, p, e, s, out, at);
    DeferralKept(b, p, e, s, t);
    TouchedStep(b, p, e, s, out, t, more, at);
  }

  // ---------------------------------------------------------------- a visible block stops

  lemma StopTextHistory(b: Bridge, p: seq<Source>, e: Source, u: int, block: Block, k: nat)
    requires block.TextBlock? && e == BlockStop(u) && !Stopped(p, u)
    ensures ItemNow(b, p + [e], u, block) == ItemNow(b, p, u, block).(completed := true)
    ensures SlotNow(b, p + [e], k, u, block) == SlotNow(b, p, k, u, block).(closed := true)
    ensures DoneNow(b, p, u, block) == [] && DoneNow(b, p + [e], u, block) == [ItemNow(b, p + [e], u, block)]
    ensures TextNow(b, p + [e], u, block) == TextNow(b, p, u, block)
  {
    HistorySnoc(p, e, u);
  }

  lemma StopTextBlock(b: Bridge, p: seq<Source>, e: Source, s: State, out: seq<Event>, at: nat)
    requires AllKnown(b, Starts(p)) && at < |Starts(p)| && BlockOk(b, p, s, out, at)
    requires e.BlockStop? && !Stopped(p, e.index) && Starts(p)[at].0 == e.index && s.slots[e.index].kind.TextKind?
    requires Starts(p + [e]) == Starts(p)
    ensures var item := s.output[at].(completed := true);
      BlockOk(b, p + [e], PutItem(PutSlot(s, e.index, s.slots[e.index].(closed := true)), at, item),
        out + [Done(at, item)], at)
  {
    StopTextHistory(b, p, e, e.index, Starts(p)[at].1, at);
    OneEvent(s, out, Done(at, s.output[at].(completed := true)), at);
  }

  lemma StopBadBlock(b: Bridge, p: seq<Source>, e: Source, s: State, out: seq<Event>, t: State, at: nat)
    requires AllKnown(b, Starts(p)) && at < |Starts(p)| && BlockOk(b, p, s, out, at)
    requires e.BlockStop? && !Stopped(p, e.index) && Starts(p)[at].0 == e.index && !s.slots[e.index].kind.TextKind?
    requires Starts(p + [e]) == Starts(p)
    requires Arguments(b, s.slots[e.index].json, s.slots[e.index].initial).None?
    requires var closed := s.slots[e.index].(closed := true);
      if closed.kind.StructuredKind? then t == PutSlot(s, e.index, closed).(deferred := true)
      else t == PutSlot(s, e.index, closed.(bad := true))
    ensures BlockOk(b, p + [e], t, out, at)
    ensures t.deferred && !s.deferred ==>
      BadNow(b, p + [e], e.index, Starts(p)[at].1) && KindOf(b, Starts(p)[at].1).StructuredKind?
  {
    HistorySnoc(p, e, e.index);
  }

  lemma StopCallNow(b: Bridge, p: seq<Source>, e: Source, block: Block, text: string, k: nat)
    requires Known(b, block) && block.ToolBlock? && KindOf(b, block).Executable()
    requires e.BlockStop? && !Stopped(p, e.index) && ToolText(b, p, e.index, block) == Some(text)
    ensures var u, q := e.index, p + [e];
      && SlotNow(b, q, k, u, block) == SlotNow(b, p, k, u, block).(closed := true)
      && ItemNow(b, q, u, block) == ItemNow(b, p, u, block).(text := text)
      && DoneNow(b, q, u, block) == DoneNow(b, p, u, block) && TextNow(b, q, u, block) == TextNow(b, p, u, block)
      && Suited(b, q, u, block) && !BadNow(b, q, u, block)
  {
    HistorySnoc(p, e, e.index);
  }

  lemma StopCallBlock(b: Bridge, p: seq<Source>, e: Source, s: State, out: seq<Event>, text: string, at: nat)
    requires AllKnown(b, Starts(p)) && at < |Starts(p)| && BlockOk(b, p, s, out, at)
    requires e.BlockStop? && !Stopped(p, e.index) && Starts(p)[at].0 == e.index && s.slots[e.index].kind.Executable()
    requires Starts(p + [e]) == Starts(p)
    requires var args := Arguments(b, s.slots[e.index].json, s.slots[e.index].initial);
      args.Some? && Rendered(b, s.slots[e.index].kind, args.value) == Some(text)
    ensures BlockOk(b, p + [e],
      PutItem(PutSlot(s, e.index, s.slots[e.index].(closed := true)), at, s.output[at].(text := text)), out, at)
  {
    StopCallNow(b, p, e, Starts(p)[at].1, text, at);
  }

  lemma StopFinalHistory(b: Bridge, p: seq<Source>, e: Source, u: int, block: Block, k: nat, text: string)
    requires Known(b, block) && KindOf(b, block).StructuredKind? && e == BlockStop(u) && !Stopped(p, u)
    requires ToolText(b, p, u, block) == Some(text)
    ensures ItemNow(b, p + [e], u, block) == ItemNow(b, p, u, block).(text := text, completed := true)
    ensures SlotNow(b, p + [e], k, u, block) == SlotNow(b, p, k, u, block).(closed := true)
    ensures DoneNow(b, p, u, block) == [] && DoneNow(b, p + [e], u, block) == [ItemNow(b, p + [e], u, block)]
    ensures TextNow(b, p, u, block) == "" && TextNow(b, p + [e], u, block) == text
    ensures Suited(b, p + [e], u, block) && !BadNow(b, p + [e], u, block)
  {
    HistorySnoc(p, e, u);
    assert ToolText(b, p + [e], u, block) == ToolText(b, p, u, block);
  }

  lemma StopFinalBlock(b: Bridge, p: seq<Source>, e: Source, s: State, out: seq<Event>, text: string, at: nat)
    requires AllKnown(b, Starts(p)) && at < |Starts(p)| && BlockOk(b, p, s, out, at)
    requires e.BlockStop? && !Stopped(p, e.index) && Starts(p)[at].0 == e.index && s.slots[e.index].kind.StructuredKind?
    requires Starts(p + [e]) == Starts(p)
    requires var args := Arguments(b, s.slots[e.index].json, s.slots[e.index].initial);
      args.Some? && Rendered(b, s.slots[e.index].kind, args.value) == Some(text)
    ensures var item := s.output[at].(text := text, completed := true);
      BlockOk(b, p + [e], PutItem(PutSlot(s, e.index, s.slots[e.index].(closed := true)), at, item),
              out + [TextOut(at, text), Done(at, item)], at)
  {
    StopFinalHistory(b, p, e, e.index, Starts(p)[at].1, at, text);
    TwoEvents(s, out, at, text, s.output[at].(text := text, completed := true));
  }

  lemma TwoEvents(s: State, out: seq<Event>, at: nat, text: string, item: Item)
    ensures var more := out + [TextOut(at, text), Done(at, item)];
      && AddedIn(more) == AddedIn(out)
      && (forall k: nat | k != at :: DoneAt(more, k) == DoneAt(out, k) && TextAt(more, k) == TextAt(out, k))
      && DoneAt(more, at) == DoneAt(out, at) + [item] && TextAt(more, at) == TextAt(out, at) + text
  {
    var first := out + [TextOut(at, text)];
    var more := out + [TextOut(at, text), Done(at, item)];
    assert more == first + [Done(at, item)];
    TwoSnoc(out, at, text, item, at);
    forall k: nat | k != at
      ensures DoneAt(more, k) == DoneAt(out, k) && TextAt(more, k) == TextAt(out, k)
    {
      TwoSnoc(out, at, text, item, k);
    }
  }

  lemma TwoSnoc(out: seq<Event>, at: nat, text: string, item: Item, k: nat)
    ensures var more := out + [TextOut(at, text)] + [Done(at, item)];
      && AddedIn(more) == AddedIn(out)
      && DoneAt(more, k) == (if k == at then DoneAt(out, k) + [item] else DoneAt(out, k))
      && TextAt(more, k) == (if k == at then TextAt(out, k) + text else TextAt(out, k))
  {
    OutSnoc(out, TextOut(at, text), k);
    OutSnoc(out + [TextOut(at, text)], Done(at, item), k);
  }

  // Whatever a stop does, it stays with its block.
  lemma StopShape(b: Bridge, s: State, out: seq<Event>, u: int, t: State, more: seq<Event>)
    requires u in s.slots && s.slots[u].Open? && Stop(b, s, out, u) == Going(t, more)
    ensures var at := s.slots[u].at;
      && at < |s.output| && t.slots.Keys == s.slots.Keys && t.order == s.order && |t.output| == |s.output|
      && (forall v | v in s.slots && v != u :: t.slots[v] == s.slots[v])
      && (forall k | 0 <= k < |s.output| && k != at :: t.output[k] == s.output[k])
      && (s.deferred ==> t.deferred) && t.started == s.started && t.reason == s.reason
      && t.slots[u].Open? && t.slots[u].at == at && t.slots[u].kind == s.slots[u].kind
      && (more == out || more == out + [Done(at, t.output[at])]
         || more == out + [TextOut(at, t.output[at].text), Done(at, t.output[at])])
  {
  }

  lemma StopEvents(s: State, out: seq<Event>, more: seq<Event>, at: nat, item: Item)
    requires more == out || more == out + [Done(at, item)] || more == out + [TextOut(at, item.text), Done(at, item)]
    ensures AddedIn(more) == AddedIn(out)
    ensures forall k: nat | k != at :: DoneAt(more, k) == DoneAt(out, k) && TextAt(more, k) == TextAt(out, k)
    ensures forall n: nat | at < n && OutOk(out, n) :: OutOk(more, n)
  {
    if more == out + [Done(at, item)] {
      OneEvent(s, out, Done(at, item), at);
    } else if more != out {
      TwoEvents(s, out, at, item.text, item);
    }
  }

  lemma StopTouches(b: Bridge, s: State, out: seq<Event>, u: int, t: State, more: seq<Event>)
    requires u in s.slots && s.slots[u].Open? && Stop(b, s, out, u) == Going(t, more) && OutOk(out, |s.output|)
    ensures var at := s.slots[u].at;
      && at < |s.output| && TouchedOnly(s, out, t, more, u, at) && OutOk(more, |t.output|)
      && t.slots[u].Open? && t.slots[u].at == at && t.slots[u].kind == s.slots[u].kind
  {
    StopShape(b, s, out, u, t, more);
    StopEvents(s, out, more, s.slots[u].at, t.output[s.slots[u].at]);
  }

  lemma StopBlock(b: Bridge, p: seq<Source>, e: Source, s: State, out: seq<Event>, t: State, more: seq<Event>, at: nat)
    requires AllKnown(b, Starts(p)) && at < |Starts(p)| && BlockOk(b, p, s, out, at)
    requires e.BlockStop? && !Stopped(p, e.index) && Starts(p)[at].0 == e.index && s.slots[e.index].at == at
    requires Starts(p + [e]) == Starts(p) && Stop(b, s, out, e.index) == Going(t, more)
    ensures BlockOk(b, p + [e], t, more, at)
    ensures t.deferred && !s.deferred ==>
      BadNow(b, p + [e], e.index, Starts(p)[at].1) && KindOf(b, Starts(p)[at].1).StructuredKind?
  {
    var slot := s.slots[e.index];
    if slot.kind.TextKind? {
      StopTextBlock(b, p, e, s, out, at);
    } else if Arguments(b, slot.json, slot.initial).None? {
      StopBadBlock(b, p, e, s, out, t, at);
    } else {
      var text := Rendered(b, slot.kind, Arguments(b, slot.json, slot.initial).value).value;
      if slot.kind.StructuredKind? {
        StopFinalBlock(b, p, e, s, out, text, at);
      } else {
        StopCallBlock(b, p, e, s, out, text, at);
      }
    }
  }

  lemma StopStep(b: Bridge, p: seq<Source>, e: Source, s: State, out: seq<Event>, t: State, more: seq<Event>)
    requires Inv(b, p, s, out) && WellFormed(p + [e]) && e.BlockStop?
    requires e.index in s.slots && s.slots[e.index].Open? && Step(b, s, out, e) == Going(t, more)
    ensures Inv(b, p + [e], t, more)
  {
    var at := s.slots[e.index].at;
    WellFormedPrefix(p, e);
    assert Starts(p + [e]) == Starts(p) by { HistorySnoc(p, e, e.index); }
    BlockBefore(b, p, s, out, e.index);
    StopTouches(b, s, out, e.index, t, more);
    StopBlock(b, p, e, s, out, t, more, at);
    if t.deferred == s.deferred {
      DeferralKept(b, p, e, s, t);
    } else {
      assert Deferral(b, p + [e], t);
    }
    TouchedStep(b, p, e, s, out, t, more, at);
  }

  // ---------------------------------------------------------------- every run

  lemma StepKeeps(b: Bridge, p: seq<Source>, e: Source, s: State, out: seq<Event>, t: State, more: seq<Event>)
    requires Inv(b, p, s, out) && WellFormed(p + [e]) && Step(b, s, out, e) == Going(t, more)
    ensures Inv(b, p + [e], t, more)
  {
    match e
    case BlockStart(_, block) =>
      if block.ThinkingBlock? {
        ThinkingStartStep(b, p, e, s, out, t, more);
      } else {
        VisibleStartStep(b, p, e, s, out, t, more);
      }
    case BlockDelta(index, delta) =>
      if s.slots[index].Thinking? {
        ThinkingStep(b, p, e, s, out, t, more);
      } else if delta.TextDelta? {
        TextDeltaStep(b, p, e, s, out, t, more);
      } else {
        JsonDeltaStep(b, p, e, s, out, t, more);
      }
    case BlockStop(index) =>
      if s.slots[index].Thinking? {
        ThinkingStep(b, p, e, s, out, t, more);
      } else {
        StopStep(b, p, e, s, out, t, more);
      }
    case _ => QuietStep(b, p, e, s, out, t, more);
  }

  lemma {:induction false} RunKeeps(b: Bridge, p: seq<Source>, s: State, out: seq<Event>)
    requires WellFormed(p) && Run(b, p) == Going(s, out)
    ensures Inv(b, p, s, out)
  {
    if p == [] {
      assert Executables(map[], []) == [];
    } else {
      var init, e := p[..|p| - 1], p[|p| - 1];
      assert p == init + [e];
      WellFormedPrefix(init, e);
      var g := Run(b, init);
      RunKeeps(b, init, g.state, g.out);
      StepKeeps(b, init, e, g.state, g.out, s, out);
    }
  }

  // ---------------------------------------------------------------- the end of the message

  lemma {:induction false} DoneAppend(out: seq<Event>, more: seq<Event>, k: nat)
    ensures DoneAt(out + more, k) == DoneAt(out, k) + DoneAt(more, k)
  {
    if more == [] {
      assert out + more == out;
    } else {
      DoneAppend(out, more[..|more| - 1], k);
      assert (out + more)[..|out + more| - 1] == out + more[..|more| - 1];
    }
  }

  // Done events neither add items nor text.
  lemma {:induction false} OnlyDone(out: seq<Event>, more: seq<Event>, k: nat)
    requires forall i | 0 <= i < |more| :: more[i].Done?
    ensures AddedIn(out + more) == AddedIn(out) && TextAt(out + more, k) == TextAt(out, k)
  {
    if more == [] {
      assert out + more == out;
    } else {
      var init, e := more[..|more| - 1], more[|more| - 1];
      assert out + more == (out + init) + [e];
      OnlyDone(out, init, k);
      OutSnoc(out + init, e, k);
    }
  }

  lemma {:induction false} DoneEventsAreDone(s: State, tools: seq<int>)
    ensures forall i | 0 <= i < |DoneEvents(s, tools)| :: DoneEvents(s, tools)[i].Done?
  {
    if tools != [] {
      DoneEventsAreDone(s, tools[..|tools| - 1]);
    }
  }

  // Every visible block has its slot, in start order.
  ghost predicate Placed(b: Bridge, starts: seq<(int, Block)>, s: State) {
    && AllKnown(b, starts) && |s.output| >= |starts|
    && forall k | 0 <= k < |starts| ::
      starts[k].0 in s.slots && s.slots[starts[k].0].Open? && s.slots[starts[k].0].at == k
  }

  predicate IsCall(b: Bridge, start: (int, Block))
    requires Known(b, start.1)
  {
    KindOf(b, start.1).Executable()
  }

  lemma CallsSnoc(b: Bridge, starts: seq<(int, Block)>)
    requires AllKnown(b, starts) && starts != []
    ensures var init, last := starts[..|starts| - 1], starts[|starts| - 1];
      AllKnown(b, init) && CallsIn(b, starts) == if IsCall(b, last) then CallsIn(b, init) + [last.0]
        else CallsIn(b, init)
  {
  }

  lemma DoneSnoc(s: State, calls: seq<int>, u: int)
    requires u in s.slots && s.slots[u].Open? && s.slots[u].at < |s.output|
    ensures DoneEvents(s, calls + [u]) ==
      DoneEvents(s, calls) + [Done(s.slots[u].at, s.output[s.slots[u].at].(completed := true))]
  {
    assert (calls + [u])[..|calls|] == calls;
  }

  // Closing marks each call done once, and nothing else.
  lemma {:induction false} ClosesCalls(b: Bridge, starts: seq<(int, Block)>, s: State, k: nat)
    requires Placed(b, starts, s)
    ensures DoneAt(DoneEvents(s, CallsIn(b, starts)), k) ==
      if k < |starts| && IsCall(b, starts[k]) then [s.output[k].(completed := true)] else []
  {
    if starts != [] {
      var init, last := starts[..|starts| - 1], starts[|starts| - 1];
      CallsSnoc(b, starts);
      assert Placed(b, init, s);
      ClosesCalls(b, init, s, k);
      if IsCall(b, last) {
        DoneSnoc(s, CallsIn(b, init), last.0);
        OutSnoc(DoneEvents(s, CallsIn(b, init)), Done(|init|, s.output[|init|].(completed := true)), k);
      }
    }
  }

  lemma FinishingSnoc(s: State, calls: seq<int>, u: int)
    requires u in s.slots && s.slots[u].Open? && s.slots[u].at < |Finishing(s, calls).output|
    ensures var before := Finishing(s, calls).output;
      Finishing(s, calls + [u]).output == before[s.slots[u].at := before[s.slots[u].at].(completed := true)]
  {
    assert (calls + [u])[..|calls|] == calls;
  }

  lemma {:induction false} FinishesCalls(b: Bridge, starts: seq<(int, Block)>, s: State)
    requires Placed(b, starts, s)
    ensures var output := Finishing(s, CallsIn(b, starts)).output;
      && |output| == |s.output|
      && forall k | 0 <= k < |output| ::
        output[k] == if k < |starts| && IsCall(b, starts[k]) then s.output[k].(completed := true) else s.output[k]
  {
    if starts != [] {
      var init, last := starts[..|starts| - 1], starts[|starts| - 1];
      CallsSnoc(b, starts);
      assert Placed(b, init, s);
      FinishesCalls(b, init, s);
      if IsCall(b, last) {
        FinishingSnoc(s, CallsIn(b, init), last.0);
      }
    }
  }

  lemma InvPlaces(b: Bridge, p: seq<Source>, s: State, out: seq<Event>)
    requires Inv(b, p, s, out)
    ensures Placed(b, Starts(p), s)
  {
    forall k | 0 <= k < |Starts(p)|
      ensures Starts(p)[k].0 in s.slots && s.slots[Starts(p)[k].0].Open? && s.slots[Starts(p)[k].0].at == k
    {
      assert BlockOk(b, p, s, out, k);
    }
  }

  lemma {:induction false} CallIsStart(b: Bridge, starts: seq<(int, Block)>, i: nat) returns (k: nat)
    requires AllKnown(b, starts) && i < |CallsIn(b, starts)|
    ensures k < |starts| && starts[k].0 == CallsIn(b, starts)[i] && IsCall(b, starts[k])
  {
    var init := starts[..|starts| - 1];
    if i < |CallsIn(b, init)| {
      k := CallIsStart(b, init, i);
    } else {
      k := |init|;
    }
  }

  lemma {:induction false} StartIsCall(b: Bridge, starts: seq<(int, Block)>, k: nat)
    requires AllKnown(b, starts) && k < |starts| && IsCall(b, starts[k])
    ensures starts[k].0 in CallsIn(b, starts)
  {
    var init := starts[..|starts| - 1];
    if k < |init| {
      StartIsCall(b, init, k);
    }
  }

  // All blocks stopped, none deferred, no call broken: the items are what they mean.
  lemma SettledItem(b: Bridge, p: seq<Source>, s: State, out: seq<Event>, k: nat)
    requires Inv(b, p, s, out) && k < |Starts(p)| && AllClosed(s.slots) && !s.deferred
    requires var u := Starts(p)[k].0; u in s.slots && s.slots[u].Open? && (IsCall(b, Starts(p)[k]) ==> !s.slots[u].bad)
    ensures var item := s.output[k];
      && BlockMeaning(b, p, Starts(p)[k].0, Starts(p)[k].1) == item.(completed := true)
      && item.completed == !IsCall(b, Starts(p)[k])
      && DoneAt(out, k) == (if IsCall(b, Starts(p)[k]) then [] else [item])
      && (!IsCall(b, Starts(p)[k]) ==> FirstItem(b, Starts(p)[k].1).text + TextAt(out, k) == item.text)
  {
    assert BlockOk(b, p, s, out, k);
    var (u, block) := Starts(p)[k];
    assert s.slots[u].closed;
    StartsVisible(p, k);
    assert "" + TextAt(out, k) == TextAt(out, k);
  }

  lemma StartsVisible(p: seq<Source>, k: nat)
    requires k < |Starts(p)|
    ensures !Starts(p)[k].1.ThinkingBlock?
  {
    var i := StartsComeFrom(p, k);
  }

  ghost predicate Says(b: Bridge, p: seq<Source>, final: seq<Event>)
    requires AllKnown(b, Starts(p))
  {
    && AddedIn(final) == AddedAll(b, Starts(p))
    && (forall k: nat :: DoneAt(final, k) == if k < |Starts(p)| then [Meaning(b, p)[k]] else [])
    && (forall k: nat | k < |Starts(p)| && !IsCall(b, Starts(p)[k]) ::
          FirstItem(b, Starts(p)[k].1).text + TextAt(final, k) == Meaning(b, p)[k].text)
    && final != [] && final[|final| - 1] == Completed(Meaning(b, p))
  }

  // The closing state holds every item as it is meant, calls not yet marked done.
  ghost predicate Ready(b: Bridge, p: seq<Source>, s: State, out: seq<Event>)
    requires AllKnown(b, Starts(p))
  {
    && Placed(b, Starts(p), s) && |s.output| == |Starts(p)|
    && AddedIn(out) == AddedAll(b, Starts(p)) && OutOk(out, |s.output|)
    && forall k: nat | k < |Starts(p)| :: ReadyItem(b, p, s, out, k)
  }

  ghost predicate ReadyItem(b: Bridge, p: seq<Source>, s: State, out: seq<Event>, k: nat)
    requires AllKnown(b, Starts(p)) && k < |Starts(p)| && |s.output| == |Starts(p)|
  {
    var call := IsCall(b, Starts(p)[k]);
    && BlockMeaning(b, p, Starts(p)[k].0, Starts(p)[k].1) == s.output[k].(completed := true)
    && (!call ==> s.output[k].completed)
    && DoneAt(out, k) == (if call then [] else [s.output[k]])
    && (!call ==> FirstItem(b, Starts(p)[k].1).text + TextAt(out, k) == s.output[k].text)
  }

  lemma ClosedOutput(b: Bridge, p: seq<Source>, s: State, out: seq<Event>)
    requires AllKnown(b, Starts(p)) && Ready(b, p, s, out)
    ensures Finishing(s, CallsIn(b, Starts(p))).output == Meaning(b, p)
  {
    FinishesCalls(b, Starts(p), s);
    forall k: nat | k < |s.output|
      ensures Finishing(s, CallsIn(b, Starts(p))).output[k] == Meaning(b, p)[k]
    {
      assert ReadyItem(b, p, s, out, k);
    }
  }

  lemma ClosedFinal(b: Bridge, s: State, out: seq<Event>, tools: seq<int>, final: seq<Event>, k: nat)
    requires Close(s, out, tools) == Finished(final)
    ensures DoneAt(final, k) == DoneAt(out, k) + DoneAt(DoneEvents(s, tools), k)
    ensures AddedIn(final) == AddedIn(out) && TextAt(final, k) == TextAt(out, k)
    ensures final != [] && final[|final| - 1] == Completed(Finishing(s, tools).output)
  {
    DoneEventsAreDone(s, tools);
    OnlyDone(out, DoneEvents(s, tools), k);
    DoneAppend(out, DoneEvents(s, tools), k);
    OutSnoc(out + DoneEvents(s, tools), Completed(Finishing(s, tools).output), k);
  }

  lemma ClosedDone(b: Bridge, p: seq<Source>, s: State, out: seq<Event>, final: seq<Event>, k: nat)
    requires AllKnown(b, Starts(p)) && Ready(b, p, s, out)
    requires Close(s, out, CallsIn(b, Starts(p))) == Finished(final)
    ensures DoneAt(final, k) == if k < |Starts(p)| then [Meaning(b, p)[k]] else []
  {
    ClosedFinal(b, s, out, CallsIn(b, Starts(p)), final, k);
    ClosesCalls(b, Starts(p), s, k);
    if k < |Starts(p)| {
      assert ReadyItem(b, p, s, out, k);
      assert [] + [s.output[k].(completed := true)] == [s.output[k].(completed := true)];
    } else {
      NothingYet(out, |s.output|, k);
    }
  }

  lemma ClosedText(b: Bridge, p: seq<Source>, s: State, out: seq<Event>, final: seq<Event>, k: nat)
    requires AllKnown(b, Starts(p)) && Ready(b, p, s, out) && k < |Starts(p)| && !IsCall(b, Starts(p)[k])
    requires Close(s, out, CallsIn(b, Starts(p))) == Finished(final)
    ensures FirstItem(b, Starts(p)[k].1).text + TextAt(final, k) == Meaning(b, p)[k].text
  {
    ClosedFinal(b, s, out, CallsIn(b, Starts(p)), final, k);
    assert ReadyItem(b, p, s, out, k);
  }

  lemma ClosedSays(b: Bridge, p: seq<Source>, s: State, out: seq<Event>, final: seq<Event>)
    requires AllKnown(b, Starts(p)) && Ready(b, p, s, out)
    requires Close(s, out, CallsIn(b, Starts(p))) == Finished(final)
    ensures Says(b, p, final)
  {
    ClosedOutput(b, p, s, out);
    ClosedFinal(b, s, out, CallsIn(b, Starts(p)), final, 0);
    forall k: nat
      ensures DoneAt(final, k) == if k < |Starts(p)| then [Meaning(b, p)[k]] else []
    {
      ClosedDone(b, p, s, out, final, k);
    }
    forall k: nat | k < |Starts(p)| && !IsCall(b, Starts(p)[k])
      ensures FirstItem(b, Starts(p)[k].1).text + TextAt(final, k) == Meaning(b, p)[k].text
    {
      ClosedText(b, p, s, out, final, k);
    }
  }

  lemma ReadyWhole(b: Bridge, p: seq<Source>, s: State, out: seq<Event>)
    requires Inv(b, p, s, out) && Complete(s) && !SomeBad(s, CallsIn(b, Starts(p)))
    ensures Ready(b, p, s, out)
  {
    InvPlaces(b, p, s, out);
    forall k: nat | k < |Starts(p)|
      ensures ReadyItem(b, p, s, out, k)
    {
      if IsCall(b, Starts(p)[k]) {
        StartIsCall(b, Starts(p), k);
      }
      SettledItem(b, p, s, out, k);
    }
  }

  // The one broken call of a message, with the arguments the repair gave it.
  lemma ReadyRepaired(b: Bridge, p: seq<Source>, s: State, out: seq<Event>, args: Json, at: nat)
    requires WellFormed(p) && Inv(b, p, s, out) && AllClosed(s.slots) && !s.deferred
    requires at < |Starts(p)| && IsCall(b, Starts(p)[at]) && CallsIn(b, Starts(p)) == [Starts(p)[at].0]
    requires b.repair.Some?
    requires var u := Starts(p)[at].0;
      u in s.slots && s.slots[u].Open? && s.slots[u].bad
        && b.repair.value(s.slots[u].wire, s.slots[u].json) == Some(args)
    ensures Ready(b, p, PutItem(s, at, s.output[at].(text := b.dump(args))), out)
  {
    var t := PutItem(s, at, s.output[at].(text := b.dump(args)));
    InvPlaces(b, p, s, out);
    forall k: nat | k < |Starts(p)|
      ensures ReadyItem(b, p, t, out, k)
    {
      if k == at {
        RepairedItem(b, p, s, out, args, k);
      } else {
        OnlyCall(b, p, at, k);
        SettledItem(b, p, s, out, k);
      }
    }
  }

  // The state in which a repair is asked for.
  lemma BrokenCall(b: Bridge, p: seq<Source>, s: State, out: seq<Event>) returns (at: nat)
    requires Inv(b, p, s, out) && SomeBad(s, CallsIn(b, Starts(p))) && |CallsIn(b, Starts(p))| == 1
    ensures at < |Starts(p)| && IsCall(b, Starts(p)[at]) && CallsIn(b, Starts(p)) == [Starts(p)[at].0]
    ensures var u := Starts(p)[at].0; u in s.slots && s.slots[u].Open? && s.slots[u].bad && s.slots[u].at == at
  {
    at := CallIsStart(b, Starts(p), 0);
    InvPlaces(b, p, s, out);
  }

  lemma OnlyCall(b: Bridge, p: seq<Source>, at: nat, k: nat)
    requires WellFormed(p) && AllKnown(b, Starts(p)) && at < |Starts(p)| && k < |Starts(p)| && k != at
    requires CallsIn(b, Starts(p)) == [Starts(p)[at].0]
    ensures !IsCall(b, Starts(p)[k])
  {
    if k < at { StartsDistinct(p, k, at); } else { StartsDistinct(p, at, k); }
    assert Starts(p)[k].0 !in CallsIn(b, Starts(p));
    if IsCall(b, Starts(p)[k]) {
      StartIsCall(b, Starts(p), k);
    }
  }

  lemma RepairedItem(b: Bridge, p: seq<Source>, s: State, out: seq<Event>, args: Json, k: nat)
    requires Inv(b, p, s, out) && AllClosed(s.slots) && b.repair.Some?
    requires k < |Starts(p)| && IsCall(b, Starts(p)[k])
    requires var u := Starts(p)[k].0;
      u in s.slots && s.slots[u].Open? && s.slots[u].bad
        && b.repair.value(s.slots[u].wire, s.slots[u].json) == Some(args)
    ensures BlockMeaning(b, p, Starts(p)[k].0, Starts(p)[k].1) == s.output[k].(text := b.dump(args), completed := true)
    ensures DoneAt(out, k) == []
  {
    assert BlockOk(b, p, s, out, k);
  }

  // ---------------------------------------------------------------- main results

  lemma ConclusionSays(b: Bridge, p: seq<Source>, s: State, out: seq<Event>, final: seq<Event>)
    requires WellFormed(p) && Inv(b, p, s, out) && Conclude(b, s, out) == Finished(final)
    ensures Says(b, p, final)
  {
    var tools := CallsIn(b, Starts(p));
    if !SomeBad(s, tools) {
      ReadyWhole(b, p, s, out);
      ClosedSays(b, p, s, out, final);
    } else {
      var at := BrokenCall(b, p, s, out);
      RepairSays(b, p, s, out, final, at);
    }
  }

  lemma RepairIs(b: Bridge, s: State, out: seq<Event>, final: seq<Event>, u: int)
    requires Conclude(b, s, out) == Finished(final) && Executables(s.slots, s.order) == [u] && SomeBad(s, [u])
    requires u in s.slots && s.slots[u].Open?
    ensures AllClosed(s.slots) && !s.deferred && b.repair.Some? && s.slots[u].at < |s.output|
    ensures var args := b.repair.value(s.slots[u].wire, s.slots[u].json);
      && args.Some?
      && Close(PutItem(s, s.slots[u].at, s.output[s.slots[u].at].(text := b.dump(args.value))), out, [u]) ==
         Finished(final)
  {
  }

  lemma RepairSays(b: Bridge, p: seq<Source>, s: State, out: seq<Event>, final: seq<Event>, at: nat)
    requires WellFormed(p) && Inv(b, p, s, out) && Conclude(b, s, out) == Finished(final)
    requires SomeBad(s, CallsIn(b, Starts(p)))
    requires at < |Starts(p)| && IsCall(b, Starts(p)[at]) && CallsIn(b, Starts(p)) == [Starts(p)[at].0]
    requires var u := Starts(p)[at].0; u in s.slots && s.slots[u].Open? && s.slots[u].bad && s.slots[u].at == at
    ensures Says(b, p, final)
  {
    var u := Starts(p)[at].0;
    RepairIs(b, s, out, final, u);
    var args := b.repair.value(s.slots[u].wire, s.slots[u].json).value;
    ReadyRepaired(b, p, s, out, args, at);
    ClosedSays(b, p, PutItem(s, at, s.output[at].(text := b.dump(args))), out, final);
  }

  // A successful translation of a well-formed message emits, for every visible block
  // in start order, one added event and one done event of the item it means, and text
  // deltas that add up to it.
  lemma TranslationRefines(b: Bridge, p: seq<Source>, final: seq<Event>)
    requires WellFormed(p) && Run(b, p).Going? && Translate(b, p + [MessageStop]) == Finished(final)
    ensures AllKnown(b, Starts(p)) && Starts(p) != [] && Says(b, p, final)
  {
    assert (p + [MessageStop])[..|p|] == p;
    RunKeeps(b, p, Run(b, p).state, Run(b, p).out);
    ConclusionSays(b, p, Run(b, p).state, Run(b, p).out, final);
  }

  // Every finished stream is such a message, whatever follows its end.
  lemma {:induction false} FinishedAtStop(b: Bridge, sources: seq<Source>, final: seq<Event>) returns (n: nat)
    requires Run(b, sources) == Finished(final)
    ensures n < |sources| && sources[n] == MessageStop
    ensures Run(b, sources[..n]).Going? && Translate(b, sources[..n] + [MessageStop]) == Finished(final)
  {
    var init, e := sources[..|sources| - 1], sources[|sources| - 1];
    if Run(b, init).Going? {
      n := |init|;
      assert (sources[..n] + [MessageStop])[..n] == init;
    } else {
      n := FinishedAtStop(b, init, final);
      assert init[..n] == sources[..n];
    }
  }

  // Whatever the stream, nothing executable is marked done before its whole message
  // has been accepted: a translation that raises leaves no such event.
  ghost predicate Places(s: State) {
    forall u | u in s.slots && s.slots[u].Open? ::
      s.slots[u].at < |s.output| && s.output[s.slots[u].at].kind == s.slots[u].kind
  }

  ghost predicate NothingExecutable(out: seq<Event>) {
    forall i | 0 <= i < |out| && out[i].Done? :: !out[i].item.kind.Executable()
  }

  lemma PutPlaces(s: State, u: int, slot: Slot, at: nat, item: Item)
    requires Places(s) && u in s.slots && s.slots[u].Open? && s.slots[u].at == at
    requires slot.Open? && slot.at == at && slot.kind == s.slots[u].kind && item.kind == slot.kind
    ensures Places(PutSlot(s, u, slot)) && Places(PutItem(PutSlot(s, u, slot), at, item))
  {
  }

  lemma StopPlaces(b: Bridge, s: State, out: seq<Event>, u: int)
    requires Places(s)
    ensures Stop(b, s, out, u).Going? ==> Places(Stop(b, s, out, u).state)
  {
    if u in s.slots && s.slots[u].Open? {
      var slot, at := s.slots[u], s.slots[u].at;
      PutPlaces(s, u, slot.(closed := true), at, s.output[at].(completed := true));
      PutPlaces(s, u, slot.(closed := true, bad := true), at, s.output[at]);
      match Arguments(b, slot.json, slot.initial)
      case None =>
      case Some(args) =>
        match Rendered(b, slot.kind, args)
        case None =>
        case Some(text) =>
          PutPlaces(s, u, slot.(closed := true), at, s.output[at].(text := text));
          PutPlaces(s, u, slot.(closed := true), at, s.output[at].(text := text, completed := true));
    }
  }

  lemma StopWithholds(b: Bridge, s: State, out: seq<Event>, u: int)
    requires Places(s) && NothingExecutable(out)
    ensures match Stop(b, s, out, u)
      case Going(t, more) => Places(t) && NothingExecutable(more)
      case Raised(more) => more == out
      case Finished(_) => false
  {
    StopPlaces(b, s, out, u);
  }

  lemma StartWithholds(b: Bridge, s: State, out: seq<Event>, u: int, block: Block)
    requires Places(s) && NothingExecutable(out)
    ensures match Start(b, s, out, u, block)
      case Going(t, more) => Places(t) && NothingExecutable(more)
      case Raised(more) => more == out
      case Finished(_) => false
  {
  }

  lemma StepWithholds(b: Bridge, s: State, out: seq<Event>, e: Source)
    requires Places(s) && NothingExecutable(out)
    ensures match Step(b, s, out, e)
      case Going(t, more) => Places(t) && NothingExecutable(more)
      case Raised(more) => NothingExecutable(more)
      case Finished(_) => e == MessageStop
  {
    if e.BlockStart? {
      StartWithholds(b, s, out, e.index, e.block);
    } else if e.BlockStop? {
      StopWithholds(b, s, out, e.index);
    }
  }

  lemma {:induction false} RaisedLeavesNothing(b: Bridge, sources: seq<Source>)
    ensures match Run(b, sources)
      case Going(s, out) => Places(s) && NothingExecutable(out)
      case Raised(out) => NothingExecutable(out)
      case Finished(_) => true
  {
    if sources != [] {
      var init := sources[..|sources| - 1];
      RaisedLeavesNothing(b, init);
      if Run(b, init).Going? {
        StepWithholds(b, Run(b, init).state, Run(b, init).out, sources[|sources| - 1]);
      }
    }
  }
}
