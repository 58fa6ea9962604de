// The object of lg_cli/codex_reviews.py. Each method is tied to the matching step of
// CodexReviews; the expert protocol is its own object.
module CodexAdapter {
  import opened Prelude
  import opened ExpertReviews
  import opened BoundedReviewsObject
  import M = CodexReviews
  import C = Checkpoint

  class CodexReviews {
    const reviews: BoundedReviews
    var state: Option<M.Book>
    var restored: bool
    var failed: bool
    var revoked: bool
    // the session file
    var file: Option<M.Book>
    ghost var callers: map<CallId, M.Stage>
    ghost var last: Option<Turn>

    ghost function Now(): M.Codex
      reads this, reviews
    {
      M.Codex(reviews.Now(), state, restored, failed, revoked, callers, file, last)
    }

    constructor (stored: Option<M.Book>)
      ensures Now() == M.START.(file := stored)
      ensures fresh(reviews)
    {
      reviews := new BoundedReviews();
      state, restored, failed, revoked, file := None, false, false, true, stored;
      callers, last := map[], None;
    }

    // The strict reader.
    static method CheckState(b: M.Book) returns (accepted: bool)
      ensures accepted <==> M.BookAccepted(b)
    {
      if |b.used| > 2 || |b.seen| > 2 || b.calls.Keys != b.seen || (b.calls != map[] && b.turn.None?) {
        return false;
      }
      var experts: set<Expert>, children: set<ChildId> := {}, {};
      ghost var done: set<CallId> := {};
      var left := b.calls.Keys;
      while left != {}
        invariant left <= b.calls.Keys && done == b.calls.Keys - left
        invariant forall c | c in done :: M.EntryAccepted(b.calls[c], b.turn)
        invariant M.CallsApart(b.calls, done) && M.ChildrenApart(b.calls, done)
        invariant experts == M.ExpertsIn(b.calls, done) && children == IdsIn(b.calls, done)
      {
        var c :| c in left;
        var fine, ids := CheckEntry(b.calls[c], b.turn, experts, children);
        Together(b.calls, done, c);
        if !fine {
          return false;
        }
        experts := experts + Elements(b.calls[c].experts);
        children := children + ids;
        done := done + {c};
        left := left - {c};
      }
      assert done == b.calls.Keys;
      return experts == b.used;
    }

    static function IdsIn(calls: M.Calls, ids: set<CallId>): set<ChildId> {
      set c, i | c in ids && c in calls && 0 <= i < |calls[c].record.children| :: calls[c].record.children[i].id
    }

    static function ChildIds(children: seq<Child>): set<ChildId> {
      set i | 0 <= i < |children| :: children[i].id
    }

    static ghost predicate ChildIdsApart(children: seq<Child>) {
      forall i, j | 0 <= i < j < |children| :: children[i].id != children[j].id
    }

    // One entry against what the entries before it used.
    static method CheckEntry(entry: M.Entry, turn: Option<Turn>, experts: set<Expert>, seen: set<ChildId>)
      returns (fine: bool, ids: set<ChildId>)
      ensures fine <==>
        && M.EntryAccepted(entry, turn)
        && Elements(entry.experts) !! experts
        && ChildIdsApart(entry.record.children) && ChildIds(entry.record.children) !! seen
      ensures fine ==> ids == ChildIds(entry.record.children)
    {
      ids := {};
      var names := entry.experts;
      if !M.TwoNames(names) || (exists n | n in names :: n in experts) {
        return false, ids;
      }
      if turn != Some(entry.record.parentTurn) || C.Names(entry.record) != names {
        return false, ids;
      }
      var children := entry.record.children;
      for i := 0 to |children|
        invariant ids == ChildIds(children[..i])
        invariant forall j | 0 <= j < i ::
          ChildHonest(children[j]) && (entry.settled ==> children[j].state.Terminal()) && children[j].id !in seen
        invariant forall j, k | 0 <= j < k < i :: children[j].id != children[k].id
      {
        var child := children[i];
        if child.id in seen || child.id in ids || (entry.settled && !child.state.Terminal()) || !ChildHonest(child) {
          return false, ids;
        }
        assert forall j | 0 <= j < i :: children[..i][j] == children[j];
        SnocIds(children, i);
        ids := ids + {child.id};
      }
      assert children[..|children|] == children;
      return true, ids;
    }

    static lemma SnocIds(children: seq<Child>, i: nat)
      requires i < |children|
      ensures ChildIds(children[..i + 1]) == ChildIds(children[..i]) + {children[i].id}
    {
      forall x
        ensures x in ChildIds(children[..i + 1]) <==> x in ChildIds(children[..i]) + {children[i].id}
      {
        if x in ChildIds(children[..i]) {
          var j :| 0 <= j < i && children[..i][j].id == x;
          assert children[..i + 1][j].id == x;
        }
        assert children[..i + 1][i] == children[i];
        if x in ChildIds(children[..i + 1]) {
          var j :| 0 <= j < i + 1 && children[..i + 1][j].id == x;
          if j < i { assert children[..i][j].id == x; }
        }
      }
    }

    // One more entry keeps the checked entries apart exactly when it meets none of them.
    static lemma Together(calls: M.Calls, done: set<CallId>, c: CallId)
      requires c in calls && c !in done && done <= calls.Keys && M.CallsApart(calls, done)
      requires M.ChildrenApart(calls, done)
      ensures M.CallsApart(calls, done + {c}) <==> Elements(calls[c].experts) !! M.ExpertsIn(calls, done)
      ensures M.ChildrenApart(calls, done + {c}) <==>
        ChildIdsApart(calls[c].record.children) && ChildIds(calls[c].record.children) !! IdsIn(calls, done)
      ensures M.ExpertsIn(calls, done + {c}) == M.ExpertsIn(calls, done) + Elements(calls[c].experts)
      ensures IdsIn(calls, done + {c}) == IdsIn(calls, done) + ChildIds(calls[c].record.children)
      ensures M.CallsApart(calls, calls.Keys) ==> M.CallsApart(calls, done + {c})
      ensures M.ChildrenApart(calls, calls.Keys) ==> M.ChildrenApart(calls, done + {c})
    {
      TogetherExperts(calls, done, c);
      TogetherChildren(calls, done, c);
    }

    static lemma TogetherExperts(calls: M.Calls, done: set<CallId>, c: CallId)
      requires c in calls && c !in done && done <= calls.Keys && M.CallsApart(calls, done)
      ensures M.CallsApart(calls, done + {c}) <==> Elements(calls[c].experts) !! M.ExpertsIn(calls, done)
      ensures M.ExpertsIn(calls, done + {c}) == M.ExpertsIn(calls, done) + Elements(calls[c].experts)
    {
      if n :| n in calls[c].experts && n in M.ExpertsIn(calls, done) {
        var d :| d in done && n in calls[d].experts;
        assert d in done + {c} && c in done + {c} && d != c;
        assert n in Elements(calls[c].experts) * M.ExpertsIn(calls, done);
      } else {
        assert forall d, n | d in done && n in calls[d].experts :: n in M.ExpertsIn(calls, done);
      }
    }

    static lemma TogetherChildren(calls: M.Calls, done: set<CallId>, c: CallId)
      requires c in calls && c !in done && done <= calls.Keys && M.ChildrenApart(calls, done)
      ensures M.ChildrenApart(calls, done + {c}) <==>
        ChildIdsApart(calls[c].record.children) && ChildIds(calls[c].record.children) !! IdsIn(calls, done)
    {
      var kids := calls[c].record.children;
      if x :| x in ChildIds(kids) && x in IdsIn(calls, done) {
        var i :| 0 <= i < |kids| && kids[i].id == x;
        var d, j :| d in done && d in calls && 0 <= j < |calls[d].record.children|
          && calls[d].record.children[j].id == x;
        assert M.In(calls, c, i) && M.In(calls, d, j) && M.At(calls, c, i).id == M.At(calls, d, j).id;
        assert c in done + {c} && d in done + {c};
        assert x in ChildIds(kids) * IdsIn(calls, done);
      } else if i, j :| 0 <= i < j < |kids| && kids[i].id == kids[j].id {
        assert M.In(calls, c, i) && M.In(calls, c, j) && M.At(calls, c, i).id == M.At(calls, c, j).id;
        assert c in done + {c};
      } else {
        assert forall i | 0 <= i < |kids| :: kids[i].id in ChildIds(kids);
        assert forall d, j | d in done && M.In(calls, d, j) :: M.At(calls, d, j).id in IdsIn(calls, done);
      }
    }

    method Write(io: Io) returns (ok: bool)
      modifies this, reviews
      ensures ok == !(old(failed) || io.Raises())
      ensures Now() == M.Write(old(Now()), io)
      ensures callers == old(callers)
    {
      if failed {
        return false;
      }
      if io.Lands() {
        file := state;
      }
      if io.Raises() {
        failed, revoked := true, true;
        reviews.Stop();
        return false;
      }
      return true;
    }

    method Save(io: Io) returns (ok: bool)
      requires state.Some?
      modifies this, reviews
      ensures ok == !M.SaveRaises(old(Now()), io)
      ensures Now() == M.Save(old(Now()), io)
      ensures callers == old(callers)
    {
      var calls := state.value.calls;
      // a record without an entry is the newest and is met last
      var left := reviews.records.Keys * calls.Keys;
      while left != {}
        invariant left <= reviews.records.Keys * state.value.calls.Keys
        invariant calls.Keys == state.value.calls.Keys
        invariant forall c | c in calls ::
          calls[c] == if c in reviews.records && c !in left then state.value.calls[c].(record := reviews.records[c])
                      else state.value.calls[c]
        modifies {}
      {
        var c :| c in left;
        calls := calls[c := calls[c].(record := reviews.records[c])];
        left := left - {c};
      }
      assert calls == M.WithRecords(state.value.calls, reviews.records);
      if !(reviews.records.Keys <= calls.Keys) {
        state := Some(state.value.(calls := calls));
        return false;
      }
      state := Some(state.value.(calls := calls, used := reviews.used, seen := reviews.seen));
      ok := Write(io);
    }

    // Settle every entry that is not settled; `children` also decides what was running.
    static method SettleEntries(calls: M.Calls, decide: bool) returns (settled: M.Calls)
      ensures settled == if decide then M.SettledBook(M.Book("", None, {}, {}, calls)).calls
        else M.SettledEntries(calls)
    {
      settled := map[];
      var left := calls.Keys;
      while left != {}
        invariant left <= calls.Keys && settled.Keys == calls.Keys - left
        invariant forall c | c in settled ::
          settled[c] == if decide then M.SettledStored(calls[c])
                        else if calls[c].settled then calls[c] else calls[c].(settled := true, interrupted := true)
      {
        var c :| c in left;
        var entry := calls[c];
        if !entry.settled {
          if decide {
            var children := BoundedReviews.InterruptAll(entry.record.children);
            entry := entry.(record := entry.record.(children := children));
          }
          entry := entry.(settled := true, interrupted := true);
        }
        settled := settled[c := entry];
        left := left - {c};
      }
    }

    method Restore(root: string, rootFine: bool, io: Io) returns (ok: bool)
      requires restored ==> state.Some?
      modifies this, reviews
      ensures Now() == M.Restore(old(Now()), root, rootFine, io)
      ensures ok ==> restored && !failed
    {
      if failed {
        return false;
      }
      if !rootFine || (restored && state.value.root != root) {
        failed, revoked := true, true;
        return false;
      }
      if restored {
        return true;
      }
      if file.None? {
        state := Some(M.Book(root, None, {}, {}, map[]));
      } else {
        var b := file.value;
        var accepted := CheckState(b);
        if !accepted || b.root != root {
          failed, revoked := true, true;
          return false;
        }
        var calls := SettleEntries(b.calls, true);
        state := Some(b.(calls := calls));
        var written := Write(io);
        if !written {
          return false;
        }
      }
      reviews.Resume(state.value.turn, state.value.used, state.value.seen);
      restored := true;
      return true;
    }

    method Begin(root: string, answer: Option<Turn>, io: Io) returns (ok: bool)
      requires answer == reviews.parent
      modifies this, reviews
      ensures Now() == M.BeginTurn(old(Now()), root, io)
      ensures ok == (M.MayBeginTurn(old(Now()), root) && !io.Raises())
    {
      if failed || !restored || state.None? || state.value.root != root {
        return false;
      }
      var begun := reviews.Begin(answer);
      if !begun {
        return false;
      }
      revoked := false;
      state := Some(M.Book(state.value.root, answer, {}, {}, map[]));
      ok := Write(io);
    }

    // Revocation from outside or from a failing call.
    method Revoke(first: Io, second: Io)
      modifies this, reviews
      ensures Now() == M.RevokeAll(old(Now()), first, second)
      ensures callers == old(callers)
    {
      revoked := true;
      if state.None? {
        return;
      }
      var saved := SettleInterrupted(first);
      if !saved {
        failed := true;
        return;
      }
      MarkSettled();
      saved := Save(second);
    }

    // `settle_interrupted` of the expert protocol with this adapter's save.
    method SettleInterrupted(io: Io) returns (saved: bool)
      requires state.Some?
      modifies this, reviews
      ensures saved == !M.SaveRaises(old(Now()), io)
      ensures Now() == M.SettleSave(old(Now()), io)
      ensures callers == old(callers)
    {
      reviews.SettleInterrupted();
      saved := Save(io);
    }

    method MarkSettled()
      requires state.Some?
      modifies this`state
      ensures Now() == M.EntriesDone(old(Now()))
    {
      var calls := SettleEntries(state.value.calls, false);
      state := Some(state.value.(calls := calls));
    }

    // A record may be dropped once its call is no longer live.
    method Drop(call: CallId)
      modifies reviews
      ensures Now() == M.Dropped(old(Now()), call)
    {
      var dropped := reviews.Finish(call);
    }

    // The end of a failing call: everything is revoked, then the record is dropped.
    method Fail(call: CallId, first: Io, second: Io)
      modifies this, reviews
      ensures Now() == M.Ruined(old(Now()), call, first, second)
      ensures callers == old(callers)
    {
      Revoke(first, second);
      Drop(call);
    }

    method StartSaved(call: CallId, io: Io, first: Io, second: Io) returns (running: bool)
      requires state.Some?
      modifies this, reviews
      ensures Now() == M.Started(old(Now()), call, io, first, second)
      ensures callers == if running then old(callers)[call := M.Executing] else old(callers)
    {
      running := Save(io);
      if running && call in reviews.records {
        running := reviews.Launch(call);
      } else {
        running := false;
      }
      if running {
        callers := callers[call := M.Executing];
      } else {
        Fail(call, first, second);
      }
    }

    method Enter(call: CallId, names: seq<Expert>)
      requires state.Some? && call in reviews.records
      modifies this`state
      ensures Now() == M.EnteredAs(old(Now()), call, names)
    {
      var entry := M.Entry(names, reviews.records[call], false, false);
      state := Some(state.value.(calls := state.value.calls[call := entry]));
    }

    method AfterPrepare(call: CallId, names: seq<Expert>, hashed: bool, io: Io, first: Io, second: Io)
      returns (running: bool)
      requires state.Some? && call in reviews.records
      modifies this, reviews
      ensures Now() == M.AfterPrepare(old(Now()), call, names, hashed, io, first, second)
      ensures callers == if running then old(callers)[call := M.Executing] else old(callers)
    {
      if !hashed {
        Fail(call, first, second);
        return false;
      }
      Enter(call, names);
      running := StartSaved(call, io, first, second);
    }

    method Validated(call: CallId, names: seq<Expert>, ids: seq<ChildId>, source: string, answer: Option<Turn>,
                     hashed: bool, io: Io, first: Io, second: Io)
      returns (running: bool)
      requires answer == reviews.parent && |ids| == |names| && state.Some?
      modifies this, reviews
      ensures Now() == M.Validated(old(Now()), call, names, ids, source, hashed, io, first, second)
      ensures callers == if running then old(callers)[call := M.Executing] else old(callers)
    {
      var prepared := reviews.Prepare(call, names, ids, source, answer);
      if !prepared {
        if call in reviews.records {
          Fail(call, first, second);
        }
        return false;
      }
      running := AfterPrepare(call, names, hashed, io, first, second);
    }

    // A call up to the first suspension inside `execute`.
    method Call(call: CallId, names: seq<Expert>, ids: seq<ChildId>, source: string, answer: Option<Turn>,
                admitted: bool, hashed: bool, io: Io, first: Io, second: Io)
      returns (running: bool)
      requires answer == reviews.parent && |ids| == |names|
      modifies this, reviews
      ensures Now() == M.Call(old(Now()), call, names, ids, source, admitted, hashed, io, first, second)
      ensures callers == if running then old(callers)[call := M.Executing] else old(callers)
    {
      if failed || !restored || revoked || !admitted || state.None? || answer.None? || answer != reviews.parentTurn
        || call in state.value.calls {
        return false;
      }
      running := Validated(call, names, ids, source, answer, hashed, io, first, second);
    }

    method SaveAndDrop(call: CallId, io: Io, first: Io, second: Io)
      requires state.Some?
      modifies this, reviews
      ensures Now() == M.SavedAndDropped(old(Now()), call, io, first, second)
    {
      var saved := Save(io);
      if saved {
        Drop(call);
      } else {
        Fail(call, first, second);
      }
    }

    method CloseEntry(call: CallId, interrupted: bool)
      requires state.Some? && call in state.value.calls
      modifies this`state
      ensures Now() == M.Closed(old(Now()), call, interrupted)
    {
      var entry := state.value.calls[call].(settled := true, interrupted := interrupted);
      state := Some(state.value.(calls := state.value.calls[call := entry]));
    }

    method CloseAndSave(call: CallId, interrupted: bool, io: Io, first: Io, second: Io)
      requires state.Some? && call in state.value.calls
      modifies this, reviews
      ensures Now() == M.SavedAndDropped(M.Closed(old(Now()), call, interrupted), call, io, first, second)
    {
      CloseEntry(call, interrupted);
      SaveAndDrop(call, io, first, second);
    }

    method Returned(call: CallId, normal: bool, changed: bool, io: Io, first: Io, second: Io)
      requires state.Some?
      modifies this, reviews
      ensures Now() == M.Returned(old(Now()), call, normal, changed, io, first, second)
    {
      if !normal || call !in state.value.calls {
        Fail(call, first, second);
      } else {
        var interrupted := state.value.calls[call].interrupted || revoked || failed || changed;
        CloseAndSave(call, interrupted, io, first, second);
      }
    }

    // The rest of a call once `execute` is over.
    method Return(call: CallId, normal: bool, changed: bool, io: Io, first: Io, second: Io)
      requires state.Some?
      modifies this, reviews
      ensures Now() == M.Return(old(Now()), call, normal, changed, io, first, second)
    {
      reviews.Finished(call);
      callers := callers - {call};
      Returned(call, normal, changed, io, first, second);
    }
  }
}
