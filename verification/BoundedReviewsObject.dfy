// The object of lg_cli/bounded_reviews.py. Each method is one stretch between two
// suspension points; its contract is the matching step of ExpertReviews.
module BoundedReviewsObject {
  import opened Prelude
  import opened ExpertReviews

  class BoundedReviews {
    var records: Records
    var used: set<Expert>
    var seen: set<CallId>
    var live: set<CallId>
    var tasks: map<(CallId, nat), Job>
    var parentTurn: Option<Turn>
    // the control points of `execute`, the host's turn, and what happened so far
    ghost var progress: map<CallId, Progress>
    ghost var parent: Option<Turn>
    ghost var turns: set<Turn>
    ghost var granted: Grant
    ghost var asked: seq<Ask>
    ghost var told: set<Event>

    ghost function Now(): State
      reads this
    {
      State(records, used, seen, live, tasks, progress, parentTurn, parent, turns, granted, asked, told)
    }

    constructor ()
      ensures Now() == EMPTY
    {
      records, used, seen, live, tasks, parentTurn := map[], {}, {}, {}, map[], None;
      progress, parent, turns, granted, asked, told := map[], None, {}, map[], [], {};
    }

    // The object of a new process; what was said and asked before it is history.
    constructor Again(ghost before: State)
      ensures Now() == Restart(before)
    {
      records, used, seen, live, tasks, parentTurn := map[], {}, {}, {}, map[], None;
      progress, parent, turns, granted, asked, told :=
        map[], None, before.turns, before.granted, before.asked, before.told;
    }

    // The host starts or ends a turn.
    ghost method HostTurn(turn: Option<Turn>)
      modifies this`parent, this`turns
      ensures Now() == match turn case Some(t) => NewTurn(old(Now()), t) case None => EndTurn(old(Now()))
    {
      parent := turn;
      if turn.Some? { turns := turns + {turn.value}; }
    }

    // What was announced since `before` is kept apart, as announced again.
    ghost method Apart(before: set<Event>)
      modifies this`told
      ensures Now() == old(Now()).(told := before)
    {
      told := before;
    }

    // Records read back from a checkpoint.
    method Adopt(saved: Records)
      modifies this`records
      ensures Now() == old(Now()).(records := saved)
    {
      records := saved;
    }

    method Discard(call: CallId)
      modifies this
      ensures Now() ==
        old(Now()).(live := old(live) - {call}, records := map c | c in old(records) && c != call :: old(records)[c])
    {
      live := live - {call};
      records := map c | c in records && c != call :: records[c];
    }

    method Begin(answer: Option<Turn>) returns (ok: bool)
      requires answer == parent
      modifies this
      ensures ok == MayBegin(old(Now()))
      ensures Now() == if ok then ExpertReviews.Begin(old(Now())) else old(Now())
    {
      var idle := true;
      var left := tasks.Keys;
      while left != {}
        invariant left <= tasks.Keys
        invariant idle == forall k | k in tasks && k !in left :: tasks[k].Ended?
      {
        var k :| k in left;
        if !tasks[k].Ended? { idle := false; }
        left := left - {k};
      }
      if records != map[] || !idle || answer.None? || answer == parentTurn {
        return false;
      }
      parentTurn := answer;
      used := {};
      seen := {};
      return true;
    }

    method Refuses(call: CallId, names: seq<Expert>, answer: Option<Turn>) returns (refused: bool)
      requires answer == parent
      ensures refused == !MayPrepare(Now(), call, names)
    {
      if |names| < 1 || 2 < |names| || (|names| == 2 && names[0] == names[1]) {
        return true;
      }
      if call in seen || (exists n | n in names :: n in used) || |used + Elements(names)| > 2 {
        return true;
      }
      return answer.None? || answer != parentTurn;
    }

    method Prepare(call: CallId, names: seq<Expert>, ids: seq<ChildId>, source: string, answer: Option<Turn>)
      returns (ok: bool)
      requires answer == parent && |ids| == |names|
      modifies this
      ensures ok == MayPrepare(old(Now()), call, names)
      ensures Now() == if ok then ExpertReviews.Prepare(old(Now()), call, names, ids, source) else old(Now())
    {
      var refused := Refuses(call, names, answer);
      if refused {
        return false;
      }
      Admit(call, names, ids, source);
      return true;
    }

    method Admit(call: CallId, names: seq<Expert>, ids: seq<ChildId>, source: string)
      requires |ids| == |names| && parentTurn.Some? && parent == parentTurn
      requires forall i, j | 0 <= i < j < |names| :: names[i] != names[j]
      modifies this
      ensures Now() == ExpertReviews.Prepare(old(Now()), call, names, ids, source)
    {
      var children := Children(names, ids);
      seen := seen + {call};
      used := used + Elements(names);
      granted := granted + Grants(parentTurn.value, names, ids);
      records := records[call := Record(parentTurn.value, source, children)];
    }

    static method Children(names: seq<Expert>, ids: seq<ChildId>) returns (children: seq<Child>)
      requires |ids| == |names|
      ensures children == NewChildren(names, ids)
    {
      children := [];
      for i := 0 to |names|
        invariant |children| == i
        invariant forall j | 0 <= j < i :: children[j] == NewChild(ids[j], names[j])
      {
        children := children + [NewChild(ids[i], names[i])];
      }
    }

    // The start of `execute`: refuse a replay, then create one task per child.
    method Launch(call: CallId) returns (ok: bool)
      requires call in records
      modifies this
      ensures ok == MayLaunch(old(Now()), call)
      ensures Now() == if ok then ExpertReviews.Launch(old(Now()), call) else old(Now())
    {
      var children := records[call].children;
      var waiting := call !in live;
      for i := 0 to |children|
        invariant waiting == (call !in live && forall j | 0 <= j < i :: Kid(records, call, j).state.Waiting?)
      {
        if !Kid(records, call, i).state.Waiting? { waiting := false; }
      }
      if !waiting {
        return false;
      }
      live := live + {call};
      progress := progress[call := Gathering];
      tasks := tasks + map i: nat | i < |children| :: (call, i) := Queued(false);
      return true;
    }

    // `work` up to its model call. `saved` and `failureSaved` are the fates of the
    // two calls of `save` on this path.
    method StartWork(call: CallId, i: nat, answer: Option<Turn>, saved: bool, expired: bool, failureSaved: bool)
      requires answer == parent && Has(records, call, i)
      modifies this
      ensures Now() == ExpertReviews.StartWork(old(Now()), call, i, saved, expired, failureSaved)
    {
      var record := records[call];
      var child := record.children[i].(state := Running);
      records := records[call := record.(children := record.children[i := child])];
      if !saved {
        tasks := tasks[(call, i) := Ended(true)];
        return;
      }
      told := told + {Event(child.id, Running)};
      if Some(record.parentTurn) == answer && !expired {
        asked := asked + [Ask(record.parentTurn, child.expert, child.id)];
        tasks := tasks[(call, i) := Asking(false)];
        return;
      }
      if call !in live || Some(record.parentTurn) != answer {
        tasks := tasks[(call, i) := Ended(false)];
        return;
      }
      record := records[call];
      child := child.(state := Failed, result := None, error := AnalysisFailed);
      records := records[call := record.(children := record.children[i := child])];
      tasks := tasks[(call, i) := Ended(!failureSaved)];
    }

    // `work` after its model call.
    method FinishWork(call: CallId, i: nat, answer: Option<Turn>, report: Option<Report>, saved: bool)
      requires answer == parent
      modifies this
      ensures Now() == ExpertReviews.FinishWork(old(Now()), call, i, report, saved)
    {
      if call !in live || !Has(records, call, i) || Some(records[call].parentTurn) != answer
        || !Kid(records, call, i).state.Running? {
        tasks := tasks[(call, i) := Ended(false)];
        return;
      }
      var record := records[call];
      var child := record.children[i];
      child := if report.Some? then child.(state := Completed, result := report, error := NoError)
               else child.(state := Failed, result := None, error := AnalysisFailed);
      records := records[call := record.(children := record.children[i := child])];
      tasks := tasks[(call, i) := Ended(!saved)];
    }

    // The joint source check of `execute`, and what it publishes.
    method Publish(call: CallId, answer: Option<Turn>, sourceSame: bool)
      requires answer == parent && call in records && MayJudge(Now(), call)
      modifies this
      ensures Now() == ExpertReviews.Announce(ExpertReviews.Judge(old(Now()), call, sourceSame), call)
      ensures sourceSame && answer == Some(old(records[call]).parentTurn) ==> records == old(records)
    {
      var record := records[call];
      if !sourceSame || Some(record.parentTurn) != answer {
        var children := record.children;
        for i := 0 to |children|
          invariant |children| == |record.children|
          invariant forall j | 0 <= j < |children| ::
            children[j] == if j < i then Refused(record.children[j]) else record.children[j]
        {
          children := children[i := children[i].(state := Failed, result := None, error := SourceChanged)];
        }
        assert children == MapChildren(record.children, Refused);
        records := records[call := record.(children := children)];
      }
      told := told + EventsOf(records[call].children);
      live := live - {call};
      progress := progress[call := Draining];
      assert progress == old(progress)[call := Judged][call := Draining];
    }

    // The coroutine of a call is over.
    ghost method Finished(call: CallId)
      modifies this`progress
      ensures Now() == Drain(old(Now()), call)
    {
      progress := progress[call := Over];
    }

    // What a failed write of the adapter does: nothing is live, every task is cancelled.
    method Stop()
      modifies this
      ensures Now() == Revoke(old(Now()))
    {
      live := {};
      tasks := StopAll(tasks);
    }

    // A restored budget.
    method Resume(turn: Option<Turn>, spent: set<Expert>, known: set<CallId>)
      modifies this
      ensures Now() == old(Now()).(parentTurn := turn, used := spent, seen := known)
    {
      parentTurn, used, seen := turn, spent, known;
    }

    method SettleInterrupted()
      modifies this
      ensures Now() == Settle(old(Now()))
    {
      live := {};
      tasks := StopAll(tasks);
      var settled := InterruptEach(records);
      records := settled;
      told := told + AllEvents(settled);
    }

    static method InterruptEach(before: Records) returns (settled: Records)
      ensures settled == InterruptRecords(before)
    {
      settled := map[];
      var left := before.Keys;
      while left != {}
        invariant left <= before.Keys
        invariant settled.Keys == before.Keys - left
        invariant forall c | c in settled :: settled[c] == InterruptedRecord(before[c])
      {
        var c :| c in left;
        var children := InterruptAll(before[c].children);
        settled := settled[c := before[c].(children := children)];
        left := left - {c};
      }
    }

    static method InterruptAll(before: seq<Child>) returns (children: seq<Child>)
      ensures children == MapChildren(before, Interrupted)
    {
      children := before;
      for i := 0 to |children|
        invariant |children| == |before|
        invariant forall j | 0 <= j < |children| :: children[j] == if j < i then Interrupted(before[j]) else before[j]
      {
        if !children[i].state.Terminal() {
          children := children[i := children[i].(state := Cancelled, result := None, error := ProcessInterrupted)];
        }
      }
    }

    method Finish(call: CallId) returns (ok: bool)
      modifies this
      ensures ok == (call !in old(live))
      ensures Now() == if ok then ExpertReviews.Finish(old(Now()), call) else old(Now())
    {
      if call in live {
        return false;
      }
      records := map c | c in records && c != call :: records[c];
      return true;
    }
  }
}
