// What the steps of a Native session do to the history, seen by the strict reader.
module NativeHistory {
  import opened Prelude
  import opened ExpertReviews
  import opened Checkpoint
  import opened NativeSession
  import P = ExpertReviewsProofs

  // ---------------------------------------------------------------- items of one id

  lemma ItemsOfSnoc(m: seq<Item>, item: Item, id: CallId)
    ensures ItemsOf(m + [item], id) == ItemsOf(m, id) + (if Named(item, id) then [item] else [])
  {
    assert (m + [item])[..|m|] == m;
  }

  lemma {:induction false} ItemsOfAppend(m: seq<Item>, n: seq<Item>, id: CallId)
    ensures ItemsOf(m + n, id) == ItemsOf(m, id) + ItemsOf(n, id)
  {
    if n == [] {
      assert m + n == m;
    } else {
      var init, last := n[..|n| - 1], n[|n| - 1];
      assert m + n == (m + init) + [last] && n == init + [last];
      ItemsOfAppend(m, init, id);
      ItemsOfSnoc(m + init, last, id);
      ItemsOfSnoc(init, last, id);
    }
  }

  lemma {:induction false} ItemsOfNone(m: seq<Item>, id: CallId)
    requires forall i | 0 <= i < |m| :: !Named(m[i], id)
    ensures ItemsOf(m, id) == []
  {
    if m != [] {
      ItemsOfNone(m[..|m| - 1], id);
    }
  }

  lemma {:induction false} ItemsOfAll(m: seq<Item>, id: CallId, i: nat)
    requires i < |m| && Named(m[i], id)
    ensures m[i] in ItemsOf(m, id)
  {
    if i < |m| - 1 {
      ItemsOfAll(m[..|m| - 1], id, i);
    }
  }

  // A delegated id names no other call of the history.
  lemma MatchedCallIsDelegate(m: seq<Item>, call: ToolCall, names: seq<Expert>)
    requires Call(call) in m && Matches(m, call.id, names)
    ensures call.name == DELEGATE
  {
    var i :| 0 <= i < |m| && m[i] == Call(call);
    ItemsOfAll(m, call.id, i);
  }

  // ---------------------------------------------------------------- plain messages

  lemma {:induction false} PlainMessages(m: seq<Item>, n: seq<Item>, pending: seq<CallId>)
    requires HistoryAccepted(m, pending) && forall i | 0 <= i < |n| :: n[i].Message?
    ensures HistoryAccepted(m + n, pending)
  {
    if n == [] {
      assert m + n == m;
    } else {
      var init, last := n[..|n| - 1], n[|n| - 1];
      PlainMessages(m, init, pending);
      assert m + n == (m + init) + [last];
      ScanSnoc(m + init, last);
    }
  }

  // ---------------------------------------------------------------- results

  lemma OutputResolves(m: seq<Item>, pending: seq<CallId>, id: CallId, data: Data)
    requires HistoryAccepted(m, pending) && id in pending
    ensures HistoryAccepted(m + [Output(id, data)], RemoveFirst(pending, id))
    ensures forall x :: x in RemoveFirst(pending, id) <==> x in pending && x != id
    ensures Distinct(pending)
  {
    ScanIsShaped(m);
    ScanSnoc(m, Output(id, data));
    RemoveFirstElements(pending, id);
  }

  lemma {:induction false} OutputsResolve(m: seq<Item>, pending: seq<CallId>, ids: seq<CallId>, r: Records)
    requires HistoryAccepted(m, pending) && Distinct(ids) && forall id | id in ids :: id in pending
    requires forall id | id in ids :: id in r
    ensures HistoryAccepted(m + Outputs(ids, r), RemoveAll(pending, ids))
    ensures forall x :: x in RemoveAll(pending, ids) <==> x in pending && x !in ids
  {
    if ids == [] {
      assert m + Outputs(ids, r) == m;
    } else {
      var init, last := ids[..|ids| - 1], ids[|ids| - 1];
      assert ids == init + [last];
      OutputsResolve(m, pending, init, r);
      assert last !in init;
      assert Outputs(ids, r) == Outputs(init, r) + [Output(last, Interruption(r[last]))];
      assert m + Outputs(ids, r) == (m + Outputs(init, r)) + [Output(last, Interruption(r[last]))];
      OutputResolves(m + Outputs(init, r), RemoveAll(pending, init), last, Interruption(r[last]));
    }
  }

  lemma {:induction false} KeptElements(ids: seq<CallId>, keys: set<CallId>)
    requires Distinct(ids)
    ensures Distinct(Kept(ids, keys))
    ensures forall id :: id in Kept(ids, keys) <==> id in ids && id in keys
  {
    if ids != [] {
      KeptElements(ids[1..], keys);
      assert ids == [ids[0]] + ids[1..];
      assert ids[0] !in ids[1..];
    }
  }

  // The results that settlement appends resolve exactly the calls with a record.
  lemma SettlementResolves(m: seq<Item>, pending: seq<CallId>, r: Records)
    requires HistoryAccepted(m, pending)
    ensures HistoryAccepted(m + Outputs(Kept(pending, r.Keys), r), RemoveAll(pending, Kept(pending, r.Keys)))
    ensures forall x :: x in RemoveAll(pending, Kept(pending, r.Keys)) <==> x in pending && x !in r
  {
    ScanIsShaped(m);
    KeptElements(pending, r.Keys);
    OutputsResolve(m, pending, Kept(pending, r.Keys), r);
  }

  // ---------------------------------------------------------------- a batch of calls

  lemma {:induction false} CallsSnoc(output: seq<Item>)
    requires output != []
    ensures CallsOf(output) == CallsOf(output[..|output| - 1]) + CallsOf([output[|output| - 1]])
  {
    if |output| > 1 {
      CallsSnoc(output[1..]);
      assert output[1..][..|output[1..]| - 1] == output[..|output| - 1][1..];
    }
  }

  lemma OneItem(item: Item)
    ensures CallsOf([item]) == if item.Call? then [item.call] else []
  {
    assert [item][1..] == [] && CallsOf([item][1..]) == [];
  }

  lemma IdsSnoc(calls: seq<ToolCall>, call: ToolCall)
    ensures IdsOf(calls + [call]) == IdsOf(calls) + [call.id]
  {
  }

  // The last item of a reply is its last call, or no call.
  lemma LastItem(output: seq<Item>, before: seq<ToolCall>)
    requires output != [] && before == CallsOf(output[..|output| - 1])
    ensures var last := output[|output| - 1];
      if last.Call?
      then CallsOf(output) == before + [last.call] && IdsOf(CallsOf(output)) == IdsOf(before) + [last.call.id]
      else CallsOf(output) == before
  {
    var last := output[|output| - 1];
    CallsSnoc(output);
    OneItem(last);
    if last.Call? { IdsSnoc(before, last.call); }
  }

  // A call whose id is new enters an accepted history.
  lemma NewCallScans(m: seq<Item>, pending: seq<CallId>, call: ToolCall)
    requires HistoryAccepted(m, pending) && call.id != "" && call.id !in CallIds(m)
    ensures HistoryAccepted(m + [Call(call)], pending + [call.id])
  {
    ScanSnoc(m, Call(call));
    ScanIsShaped(m);
  }

  lemma MessageScans(m: seq<Item>, pending: seq<CallId>, item: Item)
    requires HistoryAccepted(m, pending) && item.Message?
    ensures HistoryAccepted(m + [item], pending)
  {
    ScanSnoc(m, item);
  }

  // The calls of a reply are new in the history and apart.
  ghost predicate NewCalls(m: seq<Item>, calls: seq<ToolCall>) {
    && (forall i, j | 0 <= i < j < |calls| :: calls[i].id != calls[j].id)
    && (forall i | 0 <= i < |calls| :: calls[i].id != "" && calls[i].id !in CallIds(m))
  }

  // What a reply leads to: its calls are pending and nothing else is new.
  ghost predicate Pends(m: seq<Item>, n: seq<Item>, calls: seq<ToolCall>) {
    && HistoryAccepted(n, IdsOf(calls))
    && forall id | id in CallIds(n) :: id in CallIds(m) || id in IdsOf(calls)
  }

  lemma PendsCall(m: seq<Item>, n: seq<Item>, before: seq<ToolCall>, call: ToolCall)
    requires Pends(m, n, before) && NewCalls(m, before + [call])
    ensures Pends(m, n + [Call(call)], before + [call])
  {
    assert (before + [call])[|before|] == call;
    forall i | 0 <= i < |before|
      ensures before[i].id != call.id
    {
      assert (before + [call])[i] == before[i];
    }
    NotAmong(before, call.id);
    NewCallScans(n, IdsOf(before), call);
    IdsSnoc(before, call);
    CallIdsSnoc(n, Call(call));
  }

  lemma PendsMessage(m: seq<Item>, n: seq<Item>, calls: seq<ToolCall>, item: Item)
    requires Pends(m, n, calls) && item.Message?
    ensures Pends(m, n + [item], calls)
  {
    MessageScans(n, IdsOf(calls), item);
    CallIdsSnoc(n, item);
  }

  lemma NewCallsInit(m: seq<Item>, before: seq<ToolCall>, call: ToolCall)
    requires NewCalls(m, before + [call])
    ensures NewCalls(m, before)
  {
    assert forall i | 0 <= i < |before| :: (before + [call])[i] == before[i];
  }

  lemma {:induction false} ReplyPends(m: seq<Item>, output: seq<Item>, calls: seq<ToolCall>)
    requires HistoryAccepted(m, []) && forall i | 0 <= i < |output| :: !output[i].Output?
    requires calls == CallsOf(output) && NewCalls(m, calls)
    ensures Pends(m, m + output, calls)
    decreases |output|
  {
    if output == [] {
      assert m + output == m && IdsOf(calls) == [];
    } else {
      var init, last := output[..|output| - 1], output[|output| - 1];
      var before := CallsOf(init);
      LastItem(output, before);
      assert m + output == (m + init) + [last];
      if last.Call? {
        NewCallsInit(m, before, last.call);
        ReplyPends(m, init, before);
        PendsCall(m, m + init, before, last.call);
      } else {
        ReplyPends(m, init, before);
        PendsMessage(m, m + init, before, last);
      }
    }
  }

  lemma BatchScans(m: seq<Item>, output: seq<Item>)
    requires HistoryAccepted(m, []) && forall i | 0 <= i < |output| :: !output[i].Output?
    requires forall i, j | 0 <= i < j < |CallsOf(output)| :: CallsOf(output)[i].id != CallsOf(output)[j].id
    requires forall i | 0 <= i < |CallsOf(output)| ::
      CallsOf(output)[i].id != "" && CallsOf(output)[i].id !in CallIds(m)
    ensures HistoryAccepted(m + output, IdsOf(CallsOf(output)))
    ensures forall id | id in CallIds(m + output) :: id in CallIds(m) || id in IdsOf(CallsOf(output))
  {
    ReplyPends(m, output, CallsOf(output));
  }

  lemma NotAmong(calls: seq<ToolCall>, id: CallId)
    requires forall i | 0 <= i < |calls| :: calls[i].id != id
    ensures id !in IdsOf(calls)
  {
  }

  // No ordinary message of the reply carries the id of one of its expert calls.
  ghost predicate StrayFree(output: seq<Item>) {
    forall i, j | 0 <= i < |output| && output[i].Message? && 0 <= j < |CallsOf(output)|
      && CallsOf(output)[j].name == DELEGATE ::
      output[i].stray != Some(CallsOf(output)[j].id)
  }

  ghost predicate StrayFor(output: seq<Item>, id: CallId) {
    exists i :: 0 <= i < |output| && output[i].Message? && output[i].stray == Some(id)
  }

  lemma {:induction false} CallsComeFrom(output: seq<Item>, i: nat)
    requires i < |output| && output[i].Call?
    ensures exists j :: 0 <= j < |CallsOf(output)| && CallsOf(output)[j] == output[i].call
  {
    if i == 0 {
      assert CallsOf(output)[0] == output[0].call;
    } else {
      CallsComeFrom(output[1..], i - 1);
      var j :| 0 <= j < |CallsOf(output[1..])| && CallsOf(output[1..])[j] == output[i].call;
      var k := if output[0].Call? then j + 1 else j;
      assert CallsOf(output)[k] == output[i].call;
    }
  }

  lemma {:induction false} CallIsItem(output: seq<Item>, j: nat) returns (i: nat)
    requires j < |CallsOf(output)|
    ensures i < |output| && output[i] == Call(CallsOf(output)[j])
  {
    if output[0].Call? && j == 0 {
      i := 0;
    } else {
      i := CallIsItem(output[1..], if output[0].Call? then j - 1 else j);
      i := i + 1;
    }
  }

  // The items of the reply that carry the id of its j-th call.
  lemma {:induction false} BatchItems(output: seq<Item>, call: ToolCall)
    requires forall i | 0 <= i < |output| :: !output[i].Output?
    requires forall i, j | 0 <= i < j < |CallsOf(output)| :: CallsOf(output)[i].id != CallsOf(output)[j].id
    requires call in CallsOf(output)
    ensures ItemsOf(output, call.id) == [Call(call)] <==> !StrayFor(output, call.id)
    ensures |ItemsOf(output, call.id)| == 1 <==> !StrayFor(output, call.id)
    ensures |ItemsOf(output, call.id)| >= 1
  {
    var init, last := output[..|output| - 1], output[|output| - 1];
    CallsSnoc(output);
    var before, calls := CallsOf(init), CallsOf(output);
    assert forall i | 0 <= i < |before| :: before[i] == calls[i];
    assert StrayFor(output, call.id) <==> StrayFor(init, call.id) || (last.Message? && last.stray == Some(call.id)) by {
      if StrayFor(output, call.id) {
        var i :| 0 <= i < |output| && output[i].Message? && output[i].stray == Some(call.id);
        assert i == |init| || init[i] == output[i];
      }
      if StrayFor(init, call.id) {
        var i :| 0 <= i < |init| && init[i].Message? && init[i].stray == Some(call.id);
        assert output[i] == init[i];
      }
      if last.Message? && last.stray == Some(call.id) {
        assert output[|init|] == last;
      }
    }
    if call in before {
      BatchItems(init, call);
      if last.Call? {
        assert calls[|before|] == last.call;
        assert last.call.id != call.id;
      }
    } else {
      assert last == Call(call);
      forall i | 0 <= i < |init| && init[i].Call?
        ensures init[i].call.id != call.id
      {
        CallsComeFrom(init, i);
        var j :| 0 <= j < |before| && before[j] == init[i].call;
        assert calls[|before|] == call && calls[j] == init[i].call;
      }
      if StrayFor(init, call.id) {
        var i :| 0 <= i < |init| && init[i].Message? && init[i].stray == Some(call.id);
        ItemsOfAll(init, call.id, i);
      } else {
        ItemsOfNone(init, call.id);
      }
    }
  }
}
