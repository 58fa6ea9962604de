// The folded log and the list put together from it, told item by item and message by message
// (lg_cli/backend_events.py, `snapshot_items`).
module EventLives {
  import opened Prelude
  import opened EventFold
  import Decimal

  // ---------------------------------------------------------------- one item's life

  // The item an event is about, if it may bring in a new one.
  function Mentions(e: Event): Option<ItemKey> {
    match e
    case Started(run, _, retry) => Some(At(run, (if retry then "retry:" else "user:") + run))
    case Updated(item) => Some(At(item.run, item.id))
    case Delta(run, id, _) => Some(At(run, id))
    case _ => None
  }

  // What one event makes of the item under one key.
  function Lived(before: Option<Item>, e: Event, key: ItemKey): Option<Item> {
    match e
    case Started(run, text, retry) =>
      if Mentions(e) != Some(key) then before
      else if retry then Some(Item(key.id, run, Notice, "retry", text, Completed))
      else Some(Item(key.id, run, User, "author", text, Completed))
    case Updated(item) =>
      if Mentions(e) != Some(key) then before
      else if before.None? || before.value.state in {Running, Waiting} || item.state !in {Running, Waiting}
      then Some(item)
      else before
    case Delta(run, id, delta) =>
      if Mentions(e) != Some(key) then before
      else if before.None? then Some(Item(id, run, Assistant, "LG", delta, Running))
      else if before.value.state == Running then Some(before.value.(text := before.value.text + delta))
      else before
    case Finished(run, status) =>
      if before.Some? && key.run == run && before.value.state in {Running, Waiting}
      then Some(before.value.(state := if status == Interrupted then Failed else status))
      else before
    case OtherEvent => before
  }

  function Life(events: seq<Event>, key: ItemKey): Option<Item> {
    if events == [] then None else Lived(Life(events[..|events| - 1], key), events[|events| - 1], key)
  }

  // The keys in the order in which the log first mentions them.
  function Mentioned(events: seq<Event>): seq<ItemKey> {
    if events == [] then []
    else
      var before, key := Mentioned(events[..|events| - 1]), Mentions(events[|events| - 1]);
      if key.Some? && key.value !in before then before + [key.value] else before
  }

  // The items are those of the keys, in their order, each as its life left it.
  ghost predicate Lives(items: seq<Item>, keys: seq<ItemKey>, life: ItemKey -> Option<Item>) {
    && |items| == |keys|
    && (forall i | 0 <= i < |keys| :: life(keys[i]) == Some(items[i]) && items[i].Key() == keys[i])
    && (forall key :: life(key).Some? ==> key in keys)
    && Distinct(keys)
  }

  lemma PutLives(items: seq<Item>, keys: seq<ItemKey>, life: ItemKey -> Option<Item>, item: Item, key: ItemKey,
                 after: ItemKey -> Option<Item>)
    requires Lives(items, keys, life) && item.Key() == key
    requires forall k :: after(k) == if k == key then Some(item) else life(k)
    ensures Lives(Put(items, item), if key in keys then keys else keys + [key], after)
  {
    var at := Find(items, key);
    if at.Some? {
      assert keys[at.value] == key;
    } else {
      assert key !in keys;
    }
  }

  lemma FoundLife(items: seq<Item>, keys: seq<ItemKey>, life: ItemKey -> Option<Item>, key: ItemKey)
    requires Lives(items, keys, life)
    ensures var at := Find(items, key);
      && (at.Some? <==> key in keys)
      && (at.Some? ==> keys[at.value] == key && life(key) == Some(items[at.value]))
      && (at.None? ==> life(key).None?)
  {
    var at := Find(items, key);
    if key in keys {
      var i :| 0 <= i < |keys| && keys[i] == key;
      assert items[i].Key() == key;
    }
  }

  lemma SameLives(items: seq<Item>, keys: seq<ItemKey>, life: ItemKey -> Option<Item>, after: ItemKey -> Option<Item>)
    requires Lives(items, keys, life) && forall k :: after(k) == life(k)
    ensures Lives(items, keys, after)
  {
  }

  lemma EndLives(items: seq<Item>, keys: seq<ItemKey>, life: ItemKey -> Option<Item>, run: string, status: State,
                 after: ItemKey -> Option<Item>)
    requires Lives(items, keys, life)
    requires forall k :: after(k) == Lived(life(k), Finished(run, status), k)
    ensures Lives(EndAll(items, run, status), keys, after)
  {
    forall i | 0 <= i < |keys|
      ensures after(keys[i]) == Some(Ended(items[i], run, status))
    {
      assert items[i].run == keys[i].run;
    }
  }

  lemma StepLives(items: seq<Item>, keys: seq<ItemKey>, life: ItemKey -> Option<Item>, e: Event,
                  after: ItemKey -> Option<Item>)
    requires Lives(items, keys, life) && forall k :: after(k) == Lived(life(k), e, k)
    ensures var key := Mentions(e);
      Lives(Step(items, e), if key.Some? && key.value !in keys then keys + [key.value] else keys, after)
  {
    match e
    case Started(run, text, retry) =>
      PutLives(items, keys, life, StartItem(run, text, retry), StartItem(run, text, retry).Key(), after);
    case Updated(item) =>
      FoundLife(items, keys, life, item.Key());
      if life(item.Key()).None? || !item.state.Live() || life(item.Key()).value.state.Live() {
        PutLives(items, keys, life, item, item.Key(), after);
      } else {
        SameLives(items, keys, life, after);
      }
    case Delta(run, id, delta) =>
      var at := Find(items, At(run, id));
      FoundLife(items, keys, life, At(run, id));
      if at.Some? && items[at.value].state.Running? {
        PutLives(items, keys, life, items[at.value].(text := items[at.value].text + delta), At(run, id), after);
      } else if at.None? {
        PutLives(items, keys, life, Item(id, run, Assistant, "LG", delta, Running), At(run, id), after);
      } else {
        SameLives(items, keys, life, after);
      }
    case Finished(run, status) => EndLives(items, keys, life, run, status, after);
    case OtherEvent => SameLives(items, keys, life, after);
  }

  // The fold shows every item the log mentions, in the order of first mention, exactly as the
  // events about that item alone leave it.
  lemma {:induction false} FoldedIsLived(events: seq<Event>)
    ensures Lives(Folded(events), Mentioned(events), key => Life(events, key))
  {
    if events != [] {
      var n := |events| - 1;
      FoldedIsLived(events[..n]);
      StepLives(Folded(events[..n]), Mentioned(events[..n]), key => Life(events[..n], key), events[n],
        key => Life(events, key));
    }
  }

  // ---------------------------------------------------------------- the list, message by message

  ghost predicate Listed(items: seq<Item>, run: Option<string>, id: Option<string>) {
    run.Some? && id.Some? && exists i :: 0 <= i < |items| && items[i].run == run.value && items[i].id == id.value
  }

  // A message brings in the items of its run, unless an earlier message did, or the message
  // belongs to the turns before.
  ghost predicate Brings(messages: seq<Message>, n: nat, items: seq<Item>, prior: seq<Item>)
    requires n < |messages|
  {
    && !Listed(prior, messages[n].run, messages[n].id)
    && messages[n].run.Some?
    && (exists i :: 0 <= i < |items| && items[i].run == messages[n].run.value)
    && forall k | 0 <= k < n && messages[k].run == messages[n].run :: Listed(prior, messages[k].run, messages[k].id)
  }

  // A message that is no item anywhere has one of its own.
  ghost predicate Alone(m: Message, items: seq<Item>, prior: seq<Item>) {
    !Listed(prior, m.run, m.id) && !Listed(items, m.run, m.id)
  }

  predicate Named(name: Option<string>, n: nat, shown: string) {
    shown == if name.Some? && name.value != "" then name.value else "history:" + Decimal.Written(n)
  }

  predicate Shows(m: Message, n: nat, item: Item) {
    && Named(m.id, n, item.id)
    && Named(m.run, n, item.run)
    && item.text == m.text
    && item.state == Completed
    && match m.role
       case AuthorRole => item.kind == User && item.shown == "author"
       case ErrorRole => item.kind == Notice && item.shown == "LG"
       case OtherRole(kind) => item.kind == kind && item.shown == "LG"
  }

  // What one message adds to the list.
  ghost predicate Adds(messages: seq<Message>, n: nat, items: seq<Item>, prior: seq<Item>, block: seq<Item>,
                       own: seq<Item>)
    requires n < |messages|
  {
    && block == (if Brings(messages, n, items, prior) then InRuns(items, {messages[n].run.value}) else [])
    && |own| == (if Alone(messages[n], items, prior) then 1 else 0)
    && forall item | item in own :: Shows(messages[n], n, item)
  }

  function Joined(blocks: seq<seq<Item>>, owns: seq<seq<Item>>): seq<Item>
    requires |blocks| == |owns|
  {
    if blocks == [] then []
    else
      var n := |blocks| - 1;
      Joined(blocks[..n], owns[..n]) + blocks[n] + owns[n]
  }

  lemma HasIff(items: seq<Item>, m: Message)
    ensures Has(items, m) <==> Listed(items, m.run, m.id)
  {
    if m.run.Some? && m.id.Some? {
      var key := At(m.run.value, m.id.value);
      var at := Find(items, key);
      assert forall i | 0 <= i < |items| ::
        items[i].Key() == key <==> items[i].run == m.run.value && items[i].id == m.id.value;
    }
  }

  ghost predicate Calls(m: Message, prior: seq<Item>, run: string) {
    m.run == Some(run) && !Listed(prior, m.run, m.id)
  }

  // A run was brought in exactly by a message outside the turns before that names it.
  ghost predicate Seen(messages: seq<Message>, items: seq<Item>, prior: seq<Item>, run: string) {
    && (exists i :: 0 <= i < |items| && items[i].run == run)
    && exists k :: 0 <= k < |messages| && Calls(messages[k], prior, run)
  }

  lemma {:induction false} SeenIff(messages: seq<Message>, items: seq<Item>, prior: seq<Item>, run: string)
    ensures run in Laid(messages, items, prior).seen <==> Seen(messages, items, prior, run)
  {
    if messages != [] {
      var n := |messages| - 1;
      SeenIff(messages[..n], items, prior, run);
      HasIff(prior, messages[n]);
      SeenNext(messages, n, items, prior, run);
    }
  }

  lemma SeenNext(messages: seq<Message>, n: nat, items: seq<Item>, prior: seq<Item>, run: string)
    requires n == |messages| - 1
    ensures Seen(messages, items, prior, run) <==>
      Seen(messages[..n], items, prior, run)
      || (HasRun(items, run) && messages[n].run == Some(run) && !Listed(prior, messages[n].run, messages[n].id))
  {
    if Seen(messages[..n], items, prior, run) {
      var k :| 0 <= k < n && Calls(messages[..n][k], prior, run);
      assert Calls(messages[k], prior, run);
    }
    if Seen(messages, items, prior, run) {
      var k :| 0 <= k < |messages| && Calls(messages[k], prior, run);
      assert k < n ==> Calls(messages[..n][k], prior, run);
    }
  }

  lemma BringsIff(messages: seq<Message>, n: nat, items: seq<Item>, prior: seq<Item>)
    requires n == |messages| - 1 && !Listed(prior, messages[n].run, messages[n].id)
    ensures var runs := NewRuns(messages[n], items, Laid(messages[..n], items, prior).seen);
      runs == if Brings(messages, n, items, prior) then {messages[n].run.value} else {}
  {
    if messages[n].run.Some? {
      var run := messages[n].run.value;
      SeenIff(messages[..n], items, prior, run);
      if !Seen(messages[..n], items, prior, run) && HasRun(items, run) {
        forall k | 0 <= k < n && messages[k].run == messages[n].run
          ensures Listed(prior, messages[k].run, messages[k].id)
        {
          assert !Calls(messages[..n][k], prior, run);
        }
      }
    }
  }

  lemma NextAdds(messages: seq<Message>, n: nat, items: seq<Item>, prior: seq<Item>)
    returns (block: seq<Item>, own: seq<Item>)
    requires n == |messages| - 1
    ensures Adds(messages, n, items, prior, block, own)
    ensures Laid(messages, items, prior).ordered == Laid(messages[..n], items, prior).ordered + block + own
  {
    var m := messages[n];
    HasIff(prior, m);
    HasIff(items, m);
    if Has(prior, m) {
      block, own := [], [];
    } else {
      BringsIff(messages, n, items, prior);
      NoRuns(items);
      var runs := NewRuns(m, items, Laid(messages[..n], items, prior).seen);
      block, own := InRuns(items, runs), Own(m, n, items, prior);
    }
  }

  ghost predicate AllAdd(messages: seq<Message>, items: seq<Item>, prior: seq<Item>, blocks: seq<seq<Item>>,
                         owns: seq<seq<Item>>)
  {
    && |blocks| == |owns| == |messages|
    && forall n | 0 <= n < |messages| :: Adds(messages, n, items, prior, blocks[n], owns[n])
  }

  // The messages add their pieces in their order: the items of a run where its first message
  // stands, and the message itself when it is no item.
  lemma {:induction false} LaidInOrder(messages: seq<Message>, items: seq<Item>, prior: seq<Item>)
    returns (blocks: seq<seq<Item>>, owns: seq<seq<Item>>)
    ensures AllAdd(messages, items, prior, blocks, owns)
    ensures Laid(messages, items, prior).ordered == Joined(blocks, owns)
  {
    if messages == [] {
      return [], [];
    }
    var n := |messages| - 1;
    var before, after := LaidInOrder(messages[..n], items, prior);
    var block, own := NextAdds(messages, n, items, prior);
    blocks, owns := before + [block], after + [own];
    AllAddSnoc(messages, n, items, prior, before, after, block, own);
    assert blocks[..n] == before && owns[..n] == after;
  }

  lemma AllAddSnoc(messages: seq<Message>, n: nat, items: seq<Item>, prior: seq<Item>, before: seq<seq<Item>>,
                   after: seq<seq<Item>>, block: seq<Item>, own: seq<Item>)
    requires n == |messages| - 1 && AllAdd(messages[..n], items, prior, before, after)
    requires Adds(messages, n, items, prior, block, own)
    ensures AllAdd(messages, items, prior, before + [block], after + [own])
  {
    forall k | 0 <= k < n
      ensures Adds(messages, k, items, prior, before[k], after[k])
    {
      AddsEarlier(messages, n, k, items, prior, before[k], after[k]);
    }
  }

  lemma AddsEarlier(messages: seq<Message>, n: nat, k: nat, items: seq<Item>, prior: seq<Item>, block: seq<Item>,
                    own: seq<Item>)
    requires k < n <= |messages| && Adds(messages[..n], k, items, prior, block, own)
    ensures Adds(messages, k, items, prior, block, own)
  {
    assert forall j | 0 <= j <= k :: messages[..n][j] == messages[j];
  }
}
