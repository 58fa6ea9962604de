// The durable value of a Native session and its strict reader:
// NativeRuntime.validate_checkpoint and NativeDelegations.restore.
module Checkpoint {
  import opened Prelude
  import opened ExpertReviews

  type ToolName = string

  const DELEGATE: ToolName := "delegate_review"

  // A parsed model call; `experts` is what its arguments ask for.
  datatype ToolCall = ToolCall(id: CallId, name: ToolName, experts: seq<Expert>)

  datatype Role = User | Assistant

  // One item of the history. An ordinary message may carry a stray call id.
  datatype Item =
    | Message(role: Role, text: string, stray: Option<CallId>)
    | Call(call: ToolCall)
    | Output(id: CallId, data: Data)

  // What a result says: the data of the tool, or the record of an interrupted expert call.
  datatype Data = Told(text: string) | Interruption(record: Record)

  datatype Image = Image(messages: seq<Item>, pending: seq<CallId>, records: Records)

  // ---------------------------------------------------------------- the history check

  // Calls and results seen so far, and the calls still without a result.
  datatype Scan = Good(calls: set<CallId>, results: set<CallId>, unresolved: seq<CallId>) | Bad

  function RemoveFirst(s: seq<CallId>, x: CallId): seq<CallId> {
    if s == [] then []
    else if s[0] == x then s[1..]
    else [s[0]] + RemoveFirst(s[1..], x)
  }

  function ScanItem(scan: Scan, item: Item): Scan {
    if scan.Bad? then Bad else
    match item
    case Message(_, _, _) => scan
    case Call(call) =>
      if call.id == "" || call.id in scan.calls then Bad
      else Good(scan.calls + {call.id}, scan.results, scan.unresolved + [call.id])
    case Output(id, _) =>
      if id == "" || id !in scan.calls || id in scan.results then Bad
      else Good(scan.calls, scan.results + {id}, RemoveFirst(scan.unresolved, id))
  }

  function ScanAll(messages: seq<Item>): Scan {
    if messages == [] then Good({}, {}, [])
    else ScanItem(ScanAll(messages[..|messages| - 1]), messages[|messages| - 1])
  }

  ghost predicate HistoryAccepted(messages: seq<Item>, pending: seq<CallId>) {
    ScanAll(messages).Good? && ScanAll(messages).unresolved == pending
  }

  method ValidateCheckpoint(messages: seq<Item>, pending: seq<CallId>) returns (accepted: bool)
    ensures accepted <==> HistoryAccepted(messages, pending)
  {
    var calls: set<CallId>, results: set<CallId> := {}, {};
    var unresolved: seq<CallId> := [];
    for i := 0 to |messages|
      invariant ScanAll(messages[..i]) == Good(calls, results, unresolved)
    {
      assert messages[..i + 1][..i] == messages[..i];
      var item := messages[i];
      var identity := if item.Call? then item.call.id else if item.Output? then item.id else "";
      if !item.Message? {
        if identity == "" || (if item.Call? then identity in calls else identity !in calls || identity in results) {
          BadForever(messages, i + 1);
          return false;
        }
        if item.Call? {
          calls := calls + {identity};
          unresolved := unresolved + [identity];
        } else {
          results := results + {identity};
          unresolved := RemoveFirst(unresolved, identity);
        }
      }
    }
    assert messages[..|messages|] == messages;
    return pending == unresolved;
  }

  lemma {:induction false} BadForever(messages: seq<Item>, i: nat)
    requires i <= |messages| && ScanAll(messages[..i]).Bad?
    ensures ScanAll(messages).Bad?
    decreases |messages| - i
  {
    if i < |messages| {
      assert messages[..i + 1][..i] == messages[..i];
      BadForever(messages, i + 1);
    } else {
      assert messages[..i] == messages;
    }
  }

  // What the check means: calls are distinct, each result follows its one call, and
  // the unresolved calls are the calls without a result in the order they were made.
  function CallIds(messages: seq<Item>): set<CallId> {
    set i | 0 <= i < |messages| && messages[i].Call? :: messages[i].call.id
  }

  function OutputIds(messages: seq<Item>): set<CallId> {
    set i | 0 <= i < |messages| && messages[i].Output? :: messages[i].id
  }

  lemma CallIdsSnoc(messages: seq<Item>, item: Item)
    ensures CallIds(messages + [item]) == CallIds(messages) + (if item.Call? then {item.call.id} else {})
    ensures OutputIds(messages + [item]) == OutputIds(messages) + (if item.Output? then {item.id} else {})
  {
    var m := messages + [item];
    assert forall i | 0 <= i < |messages| :: m[i] == messages[i];
    assert m[|messages|] == item;
  }

  lemma ScanSnoc(messages: seq<Item>, item: Item)
    ensures ScanAll(messages + [item]) == ScanItem(ScanAll(messages), item)
  {
    assert (messages + [item])[..|messages|] == messages;
  }

  ghost predicate ScanShape(scan: Scan) {
    scan.Good? ==>
      && Distinct(scan.unresolved)
      && scan.results <= scan.calls
      && "" !in scan.calls
      && forall id :: id in scan.unresolved <==> id in scan.calls && id !in scan.results
  }

  lemma {:induction false} RemoveFirstElements(s: seq<CallId>, x: CallId)
    requires Distinct(s)
    ensures Distinct(RemoveFirst(s, x))
    ensures forall y :: y in RemoveFirst(s, x) <==> y in s && y != x
    ensures |RemoveFirst(s, x)| == if x in s then |s| - 1 else |s|
  {
    if s != [] {
      assert s == [s[0]] + s[1..];
      assert s[0] !in s[1..];
      RemoveFirstElements(s[1..], x);
    }
  }

  lemma ScanItemShaped(scan: Scan, item: Item)
    requires ScanShape(scan)
    ensures ScanShape(ScanItem(scan, item))
  {
    if scan.Good? {
      match item
      case Message(_, _, _) =>
      case Call(call) =>
        if call.id !in scan.calls {
          assert call.id !in scan.unresolved;
        }
      case Output(id, _) => RemoveFirstElements(scan.unresolved, id);
    }
  }

  lemma {:induction false} ScanIsShaped(messages: seq<Item>)
    ensures ScanShape(ScanAll(messages))
    ensures ScanAll(messages).Good? ==>
      ScanAll(messages).calls == CallIds(messages) && ScanAll(messages).results == OutputIds(messages)
  {
    if messages != [] {
      var init, item := messages[..|messages| - 1], messages[|messages| - 1];
      assert messages == init + [item];
      ScanIsShaped(init);
      CallIdsSnoc(init, item);
      ScanItemShaped(ScanAll(init), item);
    }
  }

  lemma HistoryMeaning(messages: seq<Item>, pending: seq<CallId>)
    requires HistoryAccepted(messages, pending)
    ensures Distinct(pending)
    ensures forall id :: id in pending <==> id in CallIds(messages) && id !in OutputIds(messages)
    ensures OutputIds(messages) <= CallIds(messages)
  {
    ScanIsShaped(messages);
  }

  // ---------------------------------------------------------------- the delegation records

  predicate Named(item: Item, id: CallId) {
    match item
    case Message(_, _, stray) => stray == Some(id)
    case Call(call) => call.id == id
    case Output(other, _) => other == id
  }

  // The history items that carry one call id.
  function ItemsOf(messages: seq<Item>, id: CallId): seq<Item> {
    if messages == [] then []
    else ItemsOf(messages[..|messages| - 1], id) +
         (if Named(messages[|messages| - 1], id) then [messages[|messages| - 1]] else [])
  }

  predicate ChildAccepted(child: Child) {
    if child.state.Completed? then child.result.Some? && child.result.value.schema == child.expert
    else child.result.None?
  }

  function Names(record: Record): (names: seq<Expert>)
    ensures |names| == |record.children|
    ensures forall i | 0 <= i < |names| :: names[i] == record.children[i].expert
  {
    seq(|record.children|, i requires 0 <= i < |record.children| => record.children[i].expert)
  }

  // Exactly one history item carries the id: a delegated call of these experts.
  predicate Matches(messages: seq<Item>, id: CallId, names: seq<Expert>) {
    var items := ItemsOf(messages, id);
    && |items| == 1 && items[0].Call? && items[0].call.name == DELEGATE
    && items[0].call.experts == names
    && 1 <= |names| <= 2
    && (|names| == 2 ==> names[0] != names[1])
  }

  predicate RecordAccepted(image: Image, id: CallId, record: Record) {
    && id in image.pending
    && Matches(image.messages, id, Names(record))
    && forall i | 0 <= i < |record.children| :: ChildAccepted(record.children[i])
  }

  function ExpertsAmong(r: Records, calls: set<CallId>): set<Expert> {
    set c, i | c in calls && c in r && 0 <= i < |r[c].children| :: r[c].children[i].expert
  }

  ghost predicate NoneShared(r: Records, calls: set<CallId>) {
    forall c, i, d, j | Has(r, c, i) && Has(r, d, j) && c in calls && d in calls
      && Kid(r, c, i).expert == Kid(r, d, j).expert ::
      c == d
  }

  // No two records share an expert, and all of them together name at most two.
  ghost predicate RestoreAccepted(image: Image) {
    && |image.records| <= 2
    && (forall c | c in image.records :: RecordAccepted(image, c, image.records[c]))
    && NoneShared(image.records, image.records.Keys)
    && |ExpertsAmong(image.records, image.records.Keys)| <= 2
  }

  ghost predicate Accepted(image: Image) {
    HistoryAccepted(image.messages, image.pending) && RestoreAccepted(image)
  }

  method CheckRecord(image: Image, id: CallId, record: Record) returns (accepted: bool)
    ensures accepted <==> RecordAccepted(image, id, record)
  {
    var items := ItemsOf(image.messages, id);
    if id !in image.pending || |items| != 1 || !items[0].Call? || items[0].call.name != DELEGATE {
      return false;
    }
    var names := items[0].call.experts;
    if |names| < 1 || 2 < |names| || (|names| == 2 && names[0] == names[1]) || names != Names(record) {
      return false;
    }
    for i := 0 to |record.children|
      invariant forall j | 0 <= j < i :: ChildAccepted(record.children[j])
    {
      if !ChildAccepted(record.children[i]) {
        return false;
      }
    }
    return true;
  }

  lemma SharingStep(r: Records, done: set<CallId>, c: CallId)
    requires c in r && c !in done && NoneShared(r, done)
    ensures NoneShared(r, done + {c}) <==> ExpertsAmong(r, done) * ExpertsAmong(r, {c}) == {}
    ensures ExpertsAmong(r, done + {c}) == ExpertsAmong(r, done) + ExpertsAmong(r, {c})
  {
    if e :| e in ExpertsAmong(r, done) && e in ExpertsAmong(r, {c}) {
      var d, j :| d in done && d in r && 0 <= j < |r[d].children| && r[d].children[j].expert == e;
      var i :| 0 <= i < |r[c].children| && r[c].children[i].expert == e;
      assert Has(r, d, j) && Has(r, c, i) && Kid(r, d, j).expert == Kid(r, c, i).expert;
      assert d in done + {c} && c in done + {c} && d != c;
      assert e in ExpertsAmong(r, done) * ExpertsAmong(r, {c});
    } else {
      assert forall e :: e in ExpertsAmong(r, done) ==> e !in ExpertsAmong(r, {c});
      assert forall d, j | Has(r, d, j) && d in done :: Kid(r, d, j).expert in ExpertsAmong(r, done);
      assert forall i | Has(r, c, i) :: Kid(r, c, i).expert in ExpertsAmong(r, {c});
    }
  }

  method Restore(image: Image) returns (accepted: bool)
    ensures accepted <==> RestoreAccepted(image)
  {
    var r := image.records;
    if |r| > 2 {
      return false;
    }
    var experts: set<Expert> := {};
    ghost var done: set<CallId> := {};
    var left := r.Keys;
    while left != {}
      invariant left <= r.Keys && done == r.Keys - left
      invariant forall c | c in done :: RecordAccepted(image, c, r[c])
      invariant NoneShared(r, done) && experts == ExpertsAmong(r, done) && |experts| <= 2
    {
      var c :| c in left;
      var fine := CheckRecord(image, c, r[c]);
      if !fine {
        return false;
      }
      SharingStep(r, done, c);
      SharedForever(r, done + {c});
      var mine := ExpertsAmong(r, {c});
      if experts * mine != {} || |experts + mine| > 2 {
        return false;
      }
      experts := experts + mine;
      done := done + {c};
      left := left - {c};
    }
    assert done == r.Keys;
    return true;
  }

  // What some of the records violate, all of them violate.
  lemma SharedForever(r: Records, calls: set<CallId>)
    requires calls <= r.Keys
    ensures NoneShared(r, r.Keys) ==> NoneShared(r, calls)
    ensures |ExpertsAmong(r, calls)| <= |ExpertsAmong(r, r.Keys)|
  {
    SubsetSize(ExpertsAmong(r, calls), ExpertsAmong(r, r.Keys));
  }
}
