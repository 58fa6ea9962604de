// The items a client is shown, folded from the event log: lg_cli/backend_events.py,
// `snapshot_items` and `active_runs`. The ordered dictionary of items is a sequence; an item's
// run and identifier are its key. Titles and the structured part of an item are its `shown`.
module EventFold {
  import opened Prelude
  import Decimal

  datatype State = Running | Waiting | Completed | Failed | Interrupted | OtherState(name: string) {
    predicate Live() { Running? || Waiting? }
  }

  datatype Kind = User | Notice | Assistant | OtherKind(name: string)

  datatype ItemKey = At(run: string, id: string)

  datatype Item = Item(id: string, run: string, kind: Kind, shown: string, text: string, state: State) {
    function Key(): ItemKey { At(run, id) }
  }

  datatype Event =
    | Started(run: string, text: string, retry: bool)
    | Updated(item: Item)
    | Delta(run: string, id: string, delta: string)
    | Finished(run: string, status: State)
    | OtherEvent

  // ---------------------------------------------------------------- one event

  function Find(items: seq<Item>, key: ItemKey): (at: Option<nat>)
    ensures at.Some? ==> at.value < |items| && items[at.value].Key() == key
    ensures at.None? ==> forall i | 0 <= i < |items| :: items[i].Key() != key
  {
    if items == [] then None
    else if items[0].Key() == key then Some(0)
    else
      var rest := Find(items[1..], key);
      if rest.None? then None else Some(rest.value + 1)
  }

  // Assigning under a key keeps its place; a new key goes last.
  function Put(items: seq<Item>, item: Item): seq<Item> {
    match Find(items, item.Key())
    case Some(i) => items[i := item]
    case None => items + [item]
  }

  function StartItem(run: string, text: string, retry: bool): Item {
    Item((if retry then "retry:" else "user:") + run, run, if retry then Notice else User,
      if retry then "retry" else "author", text, Completed)
  }

  function EndState(status: State): State {
    if status.Interrupted? then Failed else status
  }

  function Ended(item: Item, run: string, status: State): Item {
    if item.run == run && item.state.Live() then item.(state := EndState(status)) else item
  }

  function EndAll(items: seq<Item>, run: string, status: State): (ended: seq<Item>)
    ensures |ended| == |items| && forall i | 0 <= i < |items| :: ended[i] == Ended(items[i], run, status)
  {
    if items == [] then [] else EndAll(items[..|items| - 1], run, status) + [Ended(items[|items| - 1], run, status)]
  }

  function Step(items: seq<Item>, event: Event): seq<Item> {
    match event
    case Started(run, text, retry) => Put(items, StartItem(run, text, retry))
    case Updated(item) =>
      var at := Find(items, item.Key());
      if at.None? || items[at.value].state.Live() || !item.state.Live() then Put(items, item) else items
    case Delta(run, id, delta) =>
      var at := Find(items, At(run, id));
      if at.None? then items + [Item(id, run, Assistant, "LG", delta, Running)]
      else
        var item := items[at.value];
        if item.state.Running? then items[at.value := item.(text := item.text + delta)] else items
    case Finished(run, status) => EndAll(items, run, status)
    case OtherEvent => items
  }

  function Folded(events: seq<Event>): seq<Item> {
    if events == [] then [] else Step(Folded(events[..|events| - 1]), events[|events| - 1])
  }

  predicate KeysApart(items: seq<Item>) {
    forall i, j | 0 <= i < j < |items| :: items[i].Key() != items[j].Key()
  }

  // ---------------------------------------------------------------- nothing comes back to life

  // Every item is still there, in its place, and none that was over is live again.
  predicate Progressed(before: seq<Item>, after: seq<Item>) {
    |before| <= |after| && forall i | 0 <= i < |before| ::
      after[i].Key() == before[i].Key() && (after[i].state.Live() ==> before[i].state.Live())
  }

  lemma PutProgresses(items: seq<Item>, item: Item)
    requires KeysApart(items)
    requires var at := Find(items, item.Key()); at.Some? && item.state.Live() ==> items[at.value].state.Live()
    ensures KeysApart(Put(items, item)) && Progressed(items, Put(items, item))
  {
  }

  lemma StepProgresses(items: seq<Item>, event: Event)
    requires KeysApart(items)
    ensures KeysApart(Step(items, event)) && Progressed(items, Step(items, event))
  {
    match event
    case Started(run, text, retry) => PutProgresses(items, StartItem(run, text, retry));
    case Updated(item) =>
      var at := Find(items, item.Key());
      if at.None? || items[at.value].state.Live() || !item.state.Live() { PutProgresses(items, item); }
    case _ =>
  }

  lemma {:induction false} FoldedApart(events: seq<Event>)
    ensures KeysApart(Folded(events))
  {
    if events != [] {
      FoldedApart(events[..|events| - 1]);
      StepProgresses(Folded(events[..|events| - 1]), events[|events| - 1]);
    }
  }

  // On any longer log.
  lemma {:induction false} NeverLiveAgain(events: seq<Event>, more: seq<Event>)
    ensures Progressed(Folded(events), Folded(events + more))
  {
    if more == [] {
      assert events + more == events;
    } else {
      var n := |more| - 1;
      assert (events + more)[..|events + more| - 1] == events + more[..n];
      NeverLiveAgain(events, more[..n]);
      FoldedApart(events + more[..n]);
      StepProgresses(Folded(events + more[..n]), more[n]);
    }
  }

  // When a run has finished, none of its items is live.
  lemma FinishedIsOver(events: seq<Event>, run: string, status: State)
    requires !EndState(status).Live()
    ensures forall item | item in Folded(events + [Finished(run, status)]) && item.run == run :: !item.state.Live()
  {
    assert (events + [Finished(run, status)])[..|events|] == events;
  }

  // ---------------------------------------------------------------- streamed text

  // Whether an event leaves the item of this key to its deltas.
  predicate LeavesIt(e: Event, key: ItemKey) {
    match e
    case Started(run, text, retry) => StartItem(run, text, retry).Key() != key
    case Updated(item) => item.Key() != key
    case Delta(_, _, _) => true
    case Finished(run, _) => run != key.run
    case OtherEvent => true
  }

  predicate OnlyStreamed(events: seq<Event>, key: ItemKey) {
    forall e | e in events :: LeavesIt(e, key)
  }

  function Deltas(events: seq<Event>, key: ItemKey): string {
    if events == [] then ""
    else
      var e := events[|events| - 1];
      Deltas(events[..|events| - 1], key) + if e.Delta? && At(e.run, e.id) == key then e.delta else ""
  }

  predicate Streams(events: seq<Event>, key: ItemKey) {
    exists e :: e in events && e.Delta? && At(e.run, e.id) == key
  }

  ghost predicate StreamedAs(items: seq<Item>, key: ItemKey, text: Option<string>) {
    var at := Find(items, key);
    (at.None? <==> text.None?) && (at.Some? ==> items[at.value].state.Running? && items[at.value].text == text.value)
  }

  lemma FindIs(items: seq<Item>, key: ItemKey, i: nat)
    requires KeysApart(items) && i < |items| && items[i].Key() == key
    ensures Find(items, key) == Some(i)
  {
  }

  lemma StreamStep(items: seq<Item>, key: ItemKey, text: Option<string>, event: Event)
    requires KeysApart(items) && StreamedAs(items, key, text) && LeavesIt(event, key)
    ensures StreamedAs(Step(items, event), key,
      if event.Delta?
        && At(event.run, event.id) == key then Some((if text.Some? then text.value else "") + event.delta) else text)
  {
    var after := Step(items, event);
    StepProgresses(items, event);
    var at := Find(items, key);
    if at.Some? {
      FindIs(after, key, at.value);
    } else if event.Delta? && At(event.run, event.id) == key {
      FindIs(after, key, |items|);
    }
  }

  // While a run streams an item, its text is the concatenation of its deltas in order.
  lemma {:induction false} StreamedText(events: seq<Event>, key: ItemKey)
    requires OnlyStreamed(events, key)
    ensures StreamedAs(Folded(events), key, if Streams(events, key) then Some(Deltas(events, key)) else None)
  {
    if events != [] {
      var n := |events| - 1;
      var e := events[n];
      assert events == events[..n] + [e];
      StreamedText(events[..n], key);
      FoldedApart(events[..n]);
      if !Streams(events[..n], key) { NoDeltas(events[..n], key); }
      StreamStep(Folded(events[..n]), key, if Streams(events[..n], key) then Some(Deltas(events[..n], key))
        else None, e);
      assert Streams(events, key) <==> Streams(events[..n], key) || (e.Delta? && At(e.run, e.id) == key);
    }
  }

  lemma {:induction false} NoDeltas(events: seq<Event>, key: ItemKey)
    requires !Streams(events, key)
    ensures Deltas(events, key) == ""
  {
    if events != [] {
      assert events[|events| - 1] in events;
      NoDeltas(events[..|events| - 1], key);
    }
  }

  // ---------------------------------------------------------------- the runs in progress

  function Position(runs: seq<string>, run: string): (at: Option<nat>)
    ensures at.Some? ==> at.value < |runs| && runs[at.value] == run
    ensures at.None? ==> run !in runs
  {
    if runs == [] then None
    else if runs[|runs| - 1] == run then Some(|runs| - 1)
    else Position(runs[..|runs| - 1], run)
  }

  function Active(events: seq<Event>): seq<string> {
    if events == [] then []
    else
      var before := Active(events[..|events| - 1]);
      match events[|events| - 1]
      case Started(run, _, _) => if run in before then before else before + [run]
      case Finished(run, _) =>
        var at := Position(before, run);
        if at.Some? then before[..at.value] + before[at.value + 1..] else before
      case _ => before
  }

  // Whether the last word about a run was that it started.
  predicate LastStarted(events: seq<Event>, run: string) {
    events != [] &&
      var e := events[|events| - 1];
      if e.Started? && e.run == run then true
      else if e.Finished? && e.run == run then false
      else LastStarted(events[..|events| - 1], run)
  }

  lemma Removed(runs: seq<string>, k: nat)
    requires Distinct(runs) && k < |runs|
    ensures var after := runs[..k] + runs[k + 1..];
      Distinct(after) && forall run :: run in after <==> run in runs && run != runs[k]
  {
    var after := runs[..k] + runs[k + 1..];
    assert forall i | 0 <= i < |after| :: after[i] == runs[if i < k then i else i + 1];
    forall run | run in runs && run != runs[k]
      ensures run in after
    {
      var i :| 0 <= i < |runs| && runs[i] == run;
      assert after[if i < k then i else i - 1] == run;
    }
  }

  // The runs in progress are those whose last event was their start, each listed once.
  lemma {:induction false} ActiveIff(events: seq<Event>, run: string)
    ensures Distinct(Active(events))
    ensures run in Active(events) <==> LastStarted(events, run)
  {
    if events != [] {
      var before, e := Active(events[..|events| - 1]), events[|events| - 1];
      ActiveIff(events[..|events| - 1], run);
      if e.Finished? && Position(before, e.run).Some? {
        Removed(before, Position(before, e.run).value);
      }
    }
  }

  // ---------------------------------------------------------------- putting the list together

  datatype Role = AuthorRole | ErrorRole | OtherRole(kind: Kind)

  datatype Message = Message(run: Option<string>, id: Option<string>, role: Role, text: string)

  function OwnKey(m: Message): Option<ItemKey> {
    if m.run.Some? && m.id.Some? then Some(At(m.run.value, m.id.value)) else None
  }

  predicate Has(items: seq<Item>, m: Message) {
    OwnKey(m).Some? && Find(items, OwnKey(m).value).Some?
  }

  function Numbered(name: Option<string>, index: nat): string {
    if name.Some? && name.value != "" then name.value else "history:" + Decimal.Written(index)
  }

  function OwnItem(m: Message, index: nat): Item {
    var kind := match m.role case AuthorRole => User case ErrorRole => Notice case OtherRole(k) => k;
    Item(Numbered(m.id, index), Numbered(m.run, index), kind, if m.role.AuthorRole? then "author"
      else "LG", m.text, Completed)
  }

  function InRuns(items: seq<Item>, runs: set<string>): seq<Item> {
    if items == [] then []
    else InRuns(items[..|items| - 1], runs) + if items[|items| - 1].run in runs then [items[|items| - 1]] else []
  }

  function NotInRuns(items: seq<Item>, runs: set<string>): seq<Item> {
    if items == [] then []
    else NotInRuns(items[..|items| - 1], runs) + if items[|items| - 1].run in runs then [] else [items[|items| - 1]]
  }

  predicate HasRun(items: seq<Item>, run: string) {
    exists i | 0 <= i < |items| :: items[i].run == run
  }

  datatype Layout = Layout(ordered: seq<Item>, seen: set<string>)

  // At the first message of a run all its items are listed; a message that is no item gets
  // one of its own.
  function Laid(messages: seq<Message>, items: seq<Item>, prior: seq<Item>): Layout {
    if messages == [] then Layout([], {})
    else
      var n := |messages| - 1;
      var before := Laid(messages[..n], items, prior);
      if Has(prior, messages[n]) then before
      else
        var runs := NewRuns(messages[n], items, before.seen);
        Layout(before.ordered + InRuns(items, runs) + Own(messages[n], n, items, prior), before.seen + runs)
  }

  // The run that a message brings in, if it has items not listed yet.
  function NewRuns(m: Message, items: seq<Item>, seen: set<string>): (runs: set<string>)
    ensures runs !! seen
    ensures runs == {} || (m.run.Some? && runs == {m.run.value})
  {
    if m.run.Some? && HasRun(items, m.run.value) && m.run.value !in seen then {m.run.value} else {}
  }

  function Own(m: Message, index: nat, items: seq<Item>, prior: seq<Item>): seq<Item> {
    if Has(prior, m) || Has(items, m) then [] else [OwnItem(m, index)]
  }

  function Snapshot(messages: seq<Message>, items: seq<Item>, prior: seq<Item>): seq<Item> {
    var laid := Laid(messages, items, prior);
    prior + laid.ordered + NotInRuns(items, laid.seen)
  }

  // The items made for messages that are in neither list.
  function OwnItems(messages: seq<Message>, items: seq<Item>, prior: seq<Item>): seq<Item> {
    if messages == [] then []
    else
      var n := |messages| - 1;
      OwnItems(messages[..n], items, prior) + Own(messages[n], n, items, prior)
  }

  lemma {:induction false} RunsSplit(items: seq<Item>, runs: set<string>)
    ensures multiset(InRuns(items, runs)) + multiset(NotInRuns(items, runs)) == multiset(items)
  {
    if items != [] {
      RunsSplit(items[..|items| - 1], runs);
      assert items == items[..|items| - 1] + [items[|items| - 1]];
    }
  }

  lemma {:induction false} RunsJoin(items: seq<Item>, runs: set<string>, run: string)
    requires run !in runs
    ensures multiset(InRuns(items, runs + {run})) == multiset(InRuns(items, runs)) + multiset(InRuns(items, {run}))
  {
    if items != [] { RunsJoin(items[..|items| - 1], runs, run); }
  }

  lemma {:induction false} NoRuns(items: seq<Item>)
    ensures InRuns(items, {}) == []
  {
    if items != [] { NoRuns(items[..|items| - 1]); }
  }

  lemma Regrouped(ordered: seq<Item>, more: seq<Item>, own: seq<Item>, owned: seq<Item>, listed: multiset<Item>)
    requires multiset(ordered) == multiset(owned) + listed
    ensures multiset(ordered + more + own) == multiset(owned + own) + (listed + multiset(more))
  {
  }

  lemma {:induction false} LaidConserves(messages: seq<Message>, items: seq<Item>, prior: seq<Item>)
    ensures var laid := Laid(messages, items, prior);
      multiset(laid.ordered) == multiset(OwnItems(messages, items, prior)) + multiset(InRuns(items, laid.seen))
  {
    NoRuns(items);
    if messages != [] {
      var n := |messages| - 1;
      var before, m := Laid(messages[..n], items, prior), messages[n];
      LaidConserves(messages[..n], items, prior);
      var runs, own := NewRuns(m, items, before.seen), Own(m, n, items, prior);
      var listed := multiset(InRuns(items, before.seen));
      Regrouped(before.ordered, InRuns(items, runs), own, OwnItems(messages[..n], items, prior), listed);
      if runs == {} {
        assert before.seen + runs == before.seen;
      } else {
        RunsJoin(items, before.seen, m.run.value);
      }
    }
  }

  // The list holds each prior item, each folded item and one item for each message that is in
  // neither, and nothing else.
  lemma Conservation(messages: seq<Message>, items: seq<Item>, prior: seq<Item>)
    ensures multiset(Snapshot(messages, items, prior)) ==
      multiset(prior) + multiset(items) + multiset(OwnItems(messages, items, prior))
  {
    var laid := Laid(messages, items, prior);
    LaidConserves(messages, items, prior);
    RunsSplit(items, laid.seen);
  }

  // Once a message of a run was listed, all its items stand together, in the order of the log.
  lemma {:induction false} RunTogether(messages: seq<Message>, items: seq<Item>, prior: seq<Item>, run: string)
    returns (at: nat)
    requires run in Laid(messages, items, prior).seen
    ensures var block := InRuns(items, {run}); var ordered := Laid(messages, items, prior).ordered;
      at + |block| <= |ordered| && ordered[at..at + |block|] == block
  {
    var n := |messages| - 1;
    var before, laid := Laid(messages[..n], items, prior), Laid(messages, items, prior);
    if run in before.seen {
      at := RunTogether(messages[..n], items, prior, run);
      StillTogether(before.ordered, laid.ordered, at, InRuns(items, {run}));
    } else {
      at := |before.ordered|;
    }
  }

  lemma StillTogether(before: seq<Item>, after: seq<Item>, at: nat, block: seq<Item>)
    requires before <= after && at + |block| <= |before| && before[at..at + |block|] == block
    ensures after[at..at + |block|] == block
  {
    assert after[..|before|][at..at + |block|] == after[at..at + |block|];
  }

  // ---------------------------------------------------------------- the loops

  method Finish(items: seq<Item>, run: string, status: State) returns (ended: seq<Item>)
    ensures ended == EndAll(items, run, status)
  {
    ended := items;
    for i := 0 to |items|
      invariant |ended| == |items|
      invariant forall k | 0 <= k < |items| :: ended[k] == if k < i then Ended(items[k], run, status) else items[k]
    {
      if ended[i].run == run && ended[i].state.Live() {
        ended := ended[i := ended[i].(state := if status.Interrupted? then Failed else status)];
      }
    }
    assert ended == EndAll(items, run, status);
  }

  method Fold(events: seq<Event>) returns (items: seq<Item>)
    ensures items == Folded(events)
  {
    items := [];
    for i := 0 to |events|
      invariant items == Folded(events[..i])
    {
      assert events[..i + 1][..i] == events[..i];
      match events[i] {
        case Started(run, text, retry) =>
          items := Put(items, StartItem(run, text, retry));
        case Updated(item) =>
          var previous := Find(items, item.Key());
          if previous.None? || items[previous.value].state.Live() || !item.state.Live() {
            items := Put(items, item);
          }
        case Delta(run, id, delta) =>
          var at := Find(items, At(run, id));
          if at.None? {
            items := items + [Item(id, run, Assistant, "LG", delta, Running)];
          } else if items[at.value].state.Running? {
            items := items[at.value := items[at.value].(text := items[at.value].text + delta)];
          }
        case Finished(run, status) =>
          items := Finish(items, run, status);
        case OtherEvent =>
      }
    }
    assert events[..|events|] == events;
  }

  method ActiveRuns(events: seq<Event>) returns (active: seq<string>)
    ensures active == Active(events)
  {
    active := [];
    for i := 0 to |events|
      invariant active == Active(events[..i])
    {
      assert events[..i + 1][..i] == events[..i];
      var e := events[i];
      if e.Started? {
        if e.run !in active { active := active + [e.run]; }
      } else if e.Finished? {
        var at := Position(active, e.run);
        if at.Some? { active := active[..at.value] + active[at.value + 1..]; }
      }
    }
    assert events[..|events|] == events;
  }

  lemma {:induction false} RunOf(items: seq<Item>, run: string)
    ensures HasRun(items, run) <==> InRuns(items, {run}) != []
  {
    if items != [] {
      var n := |items| - 1;
      RunOf(items[..n], run);
      assert HasRun(items, run) <==> HasRun(items[..n], run) || items[n].run == run by {
        if HasRun(items[..n], run) {
          var i :| 0 <= i < n && items[..n][i].run == run;
          assert items[i].run == run;
        }
        if items[n].run != run && HasRun(items, run) {
          var i :| 0 <= i < |items| && items[i].run == run;
          assert items[..n][i].run == run;
        }
      }
    }
  }

  // The items of every run, in the order of the log.
  method Group(items: seq<Item>) returns (grouped: map<string, seq<Item>>)
    ensures forall run :: run in grouped <==> HasRun(items, run)
    ensures forall run | run in grouped :: grouped[run] == InRuns(items, {run})
  {
    grouped := map[];
    for i := 0 to |items|
      invariant forall run :: run in grouped <==> InRuns(items[..i], {run}) != []
      invariant forall run | run in grouped :: grouped[run] == InRuns(items[..i], {run})
    {
      assert items[..i + 1][..i] == items[..i];
      var run := items[i].run;
      grouped := grouped[run := (if run in grouped then grouped[run] else []) + [items[i]]];
    }
    assert items[..|items|] == items;
    forall run
      ensures HasRun(items, run) <==> InRuns(items, {run}) != []
    {
      RunOf(items, run);
    }
  }

  // One message of the loop, as the specification sees it.
  lemma LaidNext(messages: seq<Message>, items: seq<Item>, prior: seq<Item>, i: nat, m: Message, before: Layout)
    requires i < |messages| && m == messages[i] && before == Laid(messages[..i], items, prior)
    ensures var runs := NewRuns(m, items, before.seen);
      Laid(messages[..i + 1], items, prior) == if Has(prior, m) then before
        else Layout(if runs == {} then before.ordered + Own(m, i, items, prior)
                    else before.ordered + InRuns(items, {m.run.value}) + Own(m, i, items, prior),
                    if runs == {} then before.seen else before.seen + {m.run.value})
  {
    assert messages[..i + 1][..i] == messages[..i];
    NoRuns(items);
    assert before.ordered + [] == before.ordered && before.seen + {} == before.seen;
  }

  method Arrange(messages: seq<Message>, items: seq<Item>, prior: seq<Item>, grouped: map<string, seq<Item>>)
    returns (ordered: seq<Item>, seen: set<string>)
    requires forall run :: run in grouped <==> HasRun(items, run)
    requires forall run | run in grouped :: grouped[run] == InRuns(items, {run})
    ensures Layout(ordered, seen) == Laid(messages, items, prior)
  {
    ordered, seen := [], {};
    for i := 0 to |messages|
      invariant Layout(ordered, seen) == Laid(messages[..i], items, prior)
    {
      var m := messages[i];
      LaidNext(messages, items, prior, i, m, Layout(ordered, seen));
      if !Has(prior, m) {
        if m.run.Some? && m.run.value in grouped && m.run.value !in seen {
          ordered := ordered + grouped[m.run.value];
          seen := seen + {m.run.value};
        }
        if !Has(items, m) {
          ordered := ordered + [OwnItem(m, i)];
        }
      }
    }
    assert messages[..|messages|] == messages;
  }

  method SnapshotItems(messages: seq<Message>, events: seq<Event>, prior: seq<Item>) returns (out: seq<Item>)
    ensures out == Snapshot(messages, Folded(events), prior)
  {
    var items := Fold(events);
    var grouped := Group(items);
    var ordered, seen := Arrange(messages, items, prior, grouped);
    out := prior + ordered;
    ghost var front := out;
    for i := 0 to |items|
      invariant out == front + NotInRuns(items[..i], seen)
    {
      assert items[..i + 1][..i] == items[..i];
      if items[i].run !in seen { out := out + [items[i]]; }
    }
    assert items[..|items|] == items;
  }
}
