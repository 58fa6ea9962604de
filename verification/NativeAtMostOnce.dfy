// Each tool call id is handed to `tools.call` or `delegations.execute` at most once,
// over every run, interruption, failed save, crash and reopening.
module NativeAtMostOnce {
  import opened Prelude
  import opened ExpertReviews
  import opened Checkpoint
  import opened NativeSession

  function SavedCalls(saved: Option<Image>): set<CallId> {
    match saved
    case None => {}
    case Some(image) => CallIds(image.messages)
  }

  predicate InBatch(phase: Phase) {
    phase.Calling? || phase.Reviewing? || phase.Delivering?
  }

  // Write-ahead: what was handed over is in the saved history, and what a running
  // batch will hand over is there too, but was not handed before.
  ghost predicate Ahead(s: Session) {
    && Distinct(s.handed)
    && HandedSaved(s.handed, s.saved)
    && (!s.phase.Down? && s.saved.Some? ==> s.saved.value.messages <= s.messages)
    && (InBatch(s.phase) ==>
       s.phase.at < |s.phase.calls| && BatchAhead(s.handed, s.saved, s.phase.calls, s.phase.at + 1))
  }

  ghost predicate HandedSaved(handed: seq<CallId>, saved: Option<Image>) {
    forall k | 0 <= k < |handed| :: handed[k] in SavedCalls(saved)
  }

  ghost predicate BatchAhead(handed: seq<CallId>, saved: Option<Image>, calls: seq<ToolCall>, from: nat) {
    && (forall i, j | 0 <= i < j < |calls| :: calls[i].id != calls[j].id)
    && (forall j | 0 <= j < |calls| :: calls[j].id in SavedCalls(saved))
    && (forall j | from <= j < |calls| :: calls[j].id !in handed)
  }

  lemma CallIdsGrow(m: seq<Item>, n: seq<Item>)
    requires m <= n
    ensures CallIds(m) <= CallIds(n)
  {
    assert forall i | 0 <= i < |m| :: m[i] == n[i];
  }

  // Steps that only append to the history and may save it.
  ghost predicate Extends(s: Session, t: Session) {
    && t.handed == s.handed
    && s.messages <= t.messages
    && (t.saved == s.saved || (t.saved.Some? && s.messages <= t.saved.value.messages <= t.messages))
    && (t.phase == s.phase || t.phase.Thinking? || t.phase.Unwinding? || t.phase.Idle? || t.phase.Wedged?
        || (InBatch(t.phase) && InBatch(s.phase) && t.phase.calls == s.phase.calls && t.phase.at == s.phase.at))
  }

  lemma ExtendsKeeps(s: Session, t: Session)
    requires Ahead(s) && Extends(s, t) && !s.phase.Down?
    ensures Ahead(t)
    ensures SavedCalls(s.saved) <= SavedCalls(t.saved)
  {
    if s.saved.Some? && t.saved != s.saved {
      CallIdsGrow(s.saved.value.messages, t.saved.value.messages);
    }
  }

  lemma SettleExtends(s: Session, first: Io, second: Io)
    ensures Extends(s, SettleInterrupted(s, first, second))
    ensures SettleInterrupted(s, first, second).phase == s.phase
  {
    var s1 := Save(Settled(s), first);
    assert s1.messages == s.messages && s1.handed == s.handed && s1.phase == s.phase;
    var s2 := Resolved(s1);
    assert s1.messages <= s2.messages && s2.saved == s1.saved && s2.handed == s.handed && s2.phase == s.phase;
  }

  // After a successful save of the whole history the next call may be handed over.
  lemma HandKeeps(s: Session, round: nat, calls: seq<ToolCall>, at: nat, t: Session)
    requires at <= |calls| && t == Hand(s, round, calls, at)
    requires Distinct(s.handed) && HandedSaved(s.handed, s.saved)
    requires s.saved.Some? ==> s.saved.value.messages <= s.messages
    requires BatchAhead(s.handed, s.saved, calls, at)
    ensures Ahead(t)
  {
    if at < |calls| {
      assert t.handed == s.handed + [calls[at].id] && t.saved == s.saved && t.messages == s.messages;
      assert BatchAhead(t.handed, t.saved, calls, at + 1);
    }
  }

  lemma {:induction false} CallsAreItems(output: seq<Item>)
    ensures forall j | 0 <= j < |CallsOf(output)| :: CallsOf(output)[j].id in CallIds(output)
  {
    if output != [] {
      CallsAreItems(output[1..]);
      assert forall i | 0 <= i < |output[1..]| :: output[1..][i] == output[i + 1];
      assert CallIds(output[1..]) <= CallIds(output);
      assert output[0].Call? ==> output[0].call.id in CallIds(output);
    }
  }

  lemma CallIdsAppend(m: seq<Item>, output: seq<Item>)
    ensures CallIds(m + output) >= CallIds(m) + CallIds(output)
  {
    CallIdsGrow(m, m + output);
    forall id | id in CallIds(output)
      ensures id in CallIds(m + output)
    {
      var i :| 0 <= i < |output| && output[i].Call? && output[i].call.id == id;
      assert (m + output)[|m| + i] == output[i];
    }
  }

  // A saved batch is ahead of everything handed so far.
  lemma BatchSaved(s: Session, calls: seq<ToolCall>, output: seq<Item>, saved: Image, tools: set<ToolName>,
                   delegates: bool)
    requires Ahead(s) && !s.phase.Down? && calls == CallsOf(output)
    requires CallsFine(s.messages, calls, tools, delegates)
    requires saved.messages == s.messages + output
    ensures BatchAhead(s.handed, Some(saved), calls, 0) && HandedSaved(s.handed, Some(saved))
  {
    CallsAreItems(output);
    CallIdsAppend(s.messages, output);
    if s.saved.Some? {
      CallIdsGrow(s.saved.value.messages, s.messages);
    }
  }

  lemma ReplyKeeps(s: Session, output: seq<Item>, schemaOk: bool, tools: set<ToolName>, delegates: bool,
                   kids: seq<seq<ChildId>>, source: string, limit: nat, io: Io)
    requires Ahead(s) && s.phase.Thinking? && |kids| == |CallsOf(output)|
    ensures Ahead(Reply(s, output, schemaOk, tools, delegates, kids, source, limit, io))
  {
    var t := Reply(s, output, schemaOk, tools, delegates, kids, source, limit, io);
    var calls := CallsOf(output);
    if s.steering == [] && calls != [] && CallsFine(s.messages, calls, tools, delegates)
      && PrepareAll(s.reviews, s.messages, calls, kids, source, limit).1 && !io.Raises() {
      var s1 := Save(s.(reviews := PrepareAll(s.reviews, s.messages, calls, kids, source, limit).0,
                        messages := s.messages + output, pending := IdsOf(calls)), io);
      BatchSaved(s, calls, output, s1.saved.value, tools, delegates);
      HandKeeps(s1, s.phase.round, calls, 0, t);
    } else {
      assert Extends(s, t);
      ExtendsKeeps(s, t);
    }
  }

  lemma CompletedExtends(s: Session, data: Data, io: Io, s3: Session)
    requires (s.phase.Calling? || s.phase.Delivering?) && s.phase.at < |s.phase.calls|
    requires var id := s.phase.calls[s.phase.at].id;
      && id in s.pending
      && s3 == Save(s.(messages := s.messages + [Output(id, data)], pending := RemoveFirst(s.pending, id),
                       reviews := Finish(s.reviews, id)), io)
    ensures Extends(s, s3)
  {
  }

  lemma CompleteEnds(s: Session, data: Data, io: Io)
    requires (s.phase.Calling? || s.phase.Delivering?) && s.phase.at < |s.phase.calls|
    requires var id := s.phase.calls[s.phase.at].id; id !in s.pending || id in s.reviews.live || io.Raises()
    ensures Extends(s, Complete(s, data, io))
  {
  }

  lemma CompleteIs(s: Session, data: Data, io: Io, s3: Session)
    requires (s.phase.Calling? || s.phase.Delivering?) && s.phase.at < |s.phase.calls|
    requires var id := s.phase.calls[s.phase.at].id;
      && id in s.pending && id !in s.reviews.live && !io.Raises()
      && s3 == Save(s.(messages := s.messages + [Output(id, data)], pending := RemoveFirst(s.pending, id),
                       reviews := Finish(s.reviews, id)), io)
    ensures Complete(s, data, io) == Hand(s3, s.phase.round, s.phase.calls, s.phase.at + 1)
  {
  }

  lemma CompletedKeeps(s: Session, s3: Session, round: nat, calls: seq<ToolCall>, at: nat, t: Session)
    requires at < |calls| && t == Hand(s3, round, calls, at + 1)
    requires (s.phase.Calling? || s.phase.Delivering?) && s.phase.calls == calls && s.phase.at == at
    requires Ahead(s) && Extends(s, s3) && s3.phase == s.phase
    ensures Ahead(t)
  {
    ExtendsKeeps(s, s3);
    HandKeeps(s3, round, calls, at + 1, t);
  }

  lemma CompleteKeeps(s: Session, data: Data, io: Io)
    requires Ahead(s) && (s.phase.Calling? || s.phase.Delivering?)
    ensures Ahead(Complete(s, data, io))
  {
    var id := s.phase.calls[s.phase.at].id;
    if id in s.pending && id !in s.reviews.live && !io.Raises() {
      var s3 := Save(s.(messages := s.messages + [Output(id, data)], pending := RemoveFirst(s.pending, id),
                        reviews := Finish(s.reviews, id)), io);
      CompletedExtends(s, data, io, s3);
      CompleteIs(s, data, io, s3);
      CompletedKeeps(s, s3, s.phase.round, s.phase.calls, s.phase.at, Complete(s, data, io));
    } else {
      CompleteEnds(s, data, io);
      ExtendsKeeps(s, Complete(s, data, io));
    }
  }

  lemma RestoredKeeps(s: Session, image: Image, first: Io, second: Io)
    requires Ahead(s) && s.phase.Down? && s.saved == Some(image)
    ensures Ahead(Restored(s, image, first, second))
  {
    var s1 := Loaded(s, image);
    SettleExtends(s1, first, second);
    ExtendsKeeps(s1, SettleInterrupted(s1, first, second));
  }

  lemma ReopenKeeps(s: Session, first: Io, second: Io)
    requires Ahead(s) && s.phase.Down?
    ensures Ahead(Reopen(s, first, second))
  {
    if s.saved.Some? {
      RestoredKeeps(s, s.saved.value, first, second);
    }
  }

  lemma StartTurnExtends(s: Session, turn: Turn, text: string, io: Io)
    ensures Extends(s, StartTurn(s, turn, text, io))
  {
  }

  lemma ContinueExtends(s: Session, s1: Session, call: CallId, i: nat, expired: bool, second: Io)
    requires Has(s.reviews.records, call, i) && Extends(s, s1) && s1.messages == s.messages && s1.phase == s.phase
    ensures Extends(s, ExpertContinue(s, s1, call, i, expired, second))
  {
  }

  lemma ExpertStartExtends(s: Session, call: CallId, i: nat, first: Io, expired: bool, second: Io)
    ensures Extends(s, ExpertStart(s, call, i, first, expired, second))
  {
    if Has(s.reviews.records, call, i) {
      var s1 := Save(s.(reviews := StartWork(s.reviews, call, i, false, expired, false)), first);
      ContinueExtends(s, s1, call, i, expired, second);
    }
  }

  lemma ExpertStepExtends(s: Session, a: Step)
    requires Allowed(s, a) && (a.DoExpertFinish? || a.DoExpertDrop? || a.DoExpertsLeave?)
    ensures Extends(s, Next(s, a))
  {
  }

  lemma AbortExtends(s: Session, first: Io, second: Io)
    requires s.phase.Reviewing? && s.phase.at < |s.phase.calls|
    ensures Extends(s, ExpertsAbort(s, first, second))
  {
    SettleExtends(s, first, second);
  }

  lemma JudgeExtends(s: Session, sourceSame: bool, io: Io, first: Io, second: Io)
    requires s.phase.Reviewing? && s.phase.at < |s.phase.calls| && Current(s) in s.reviews.records
    ensures Extends(s, ExpertsJudge(s, sourceSame, io, first, second))
  {
    var s1 := Save(s.(reviews := Judge(s.reviews, Current(s), sourceSame)), io);
    if io.Raises() {
      AbortExtends(s1, first, second);
    }
  }

  lemma StopExtends(s: Session, first: Io, second: Io)
    ensures Extends(s, Interrupt(s, first, second)) && Extends(s, Unwind(s, first, second))
  {
    SettleExtends(s, first, second);
  }

  lemma QuietStepExtends(s: Session, a: Step)
    requires Allowed(s, a) && (s.phase.Reviewing? ==> s.phase.at < |s.phase.calls|)
    requires !a.DoReply? && !a.DoComplete? && !a.DoReopen? && !a.DoCrash? && !a.DoSteer? && !a.DoFail?
    ensures Extends(s, Next(s, a))
  {
    match a {
      case DoStartTurn(turn, text, io) => StartTurnExtends(s, turn, text, io);
      case DoExpertStart(call, i, io, expired, second) => ExpertStartExtends(s, call, i, io, expired, second);
      case DoExpertsJudge(sourceSame, io, first, second) => JudgeExtends(s, sourceSame, io, first, second);
      case DoExpertsAbort(first, second) => AbortExtends(s, first, second);
      case DoInterrupt(first, second) => StopExtends(s, first, second);
      case DoUnwind(first, second) => StopExtends(s, first, second);
      case _ => ExpertStepExtends(s, a);
    }
  }

  lemma StepKeeps(s: Session, a: Step)
    requires Ahead(s) && Allowed(s, a)
    ensures Ahead(Next(s, a))
  {
    match a {
      case DoReply(output, schemaOk, tools, delegates, kids, source, limit, io) =>
        ReplyKeeps(s, output, schemaOk, tools, delegates, kids, source, limit, io);
      case DoComplete(data, io) => CompleteKeeps(s, data, io);
      case DoReopen(first, second) => ReopenKeeps(s, first, second);
      case DoCrash =>
      case DoSteer(_) =>
      case DoFail =>
      case _ =>
        QuietStepExtends(s, a);
        ExtendsKeeps(s, Next(s, a));
    }
  }

  lemma {:induction false} RunKeeps(s: Session, steps: seq<Step>, t: Session)
    requires Ahead(s) && Runs(s, steps, t)
    ensures Ahead(t)
    decreases |steps|
  {
    if steps != [] {
      StepKeeps(s, steps[0]);
      RunKeeps(Next(s, steps[0]), steps[1..], t);
    }
  }

  lemma AtMostOnce(steps: seq<Step>, t: Session)
    requires Runs(FIRST, steps, t)
    ensures Distinct(t.handed)
    ensures forall k | 0 <= k < |t.handed| :: t.handed[k] in SavedCalls(t.saved)
  {
    RunKeeps(FIRST, steps, t);
  }

  // A call without a saved result stays visible in the saved `pending`, and a
  // session that has one never runs a turn again, however often it is reopened.
  ghost predicate Refusing(s: Session, id: CallId) {
    && SavedUnresolved(s.saved, id)
    && (s.phase.Down? || (s.phase.Idle? && id in s.pending))
    && id !in s.reviews.records
    && s.reviews.live == {}
    && forall k | k in s.reviews.tasks :: s.reviews.tasks[k] != Queued(false)
  }

  ghost predicate SavedUnresolved(saved: Option<Image>, id: CallId) {
    saved.Some? && id in saved.value.pending && id !in saved.value.records
  }

  lemma {:induction false} KeptNot(ids: seq<CallId>, keys: set<CallId>, id: CallId)
    requires id !in keys
    ensures id !in Kept(ids, keys)
  {
    if ids != [] {
      KeptNot(ids[1..], keys, id);
    }
  }

  lemma {:induction false} RemoveFirstKeeps(s: seq<CallId>, x: CallId, id: CallId)
    requires id in s && id != x
    ensures id in RemoveFirst(s, x)
  {
    if s[0] != x && s[0] != id {
      RemoveFirstKeeps(s[1..], x, id);
    }
  }

  lemma {:induction false} RemoveAllKeeps(s: seq<CallId>, ids: seq<CallId>, id: CallId)
    requires id in s && id !in ids
    ensures id in RemoveAll(s, ids)
  {
    if ids != [] {
      RemoveAllKeeps(s, ids[..|ids| - 1], id);
      RemoveFirstKeeps(RemoveAll(s, ids[..|ids| - 1]), ids[|ids| - 1], id);
    }
  }

  lemma SettleRefuses(s: Session, first: Io, second: Io, id: CallId)
    requires id in s.pending && id !in s.reviews.records && SavedUnresolved(s.saved, id)
    ensures var t := SettleInterrupted(s, first, second);
      id in t.pending && id !in t.reviews.records && SavedUnresolved(t.saved, id)
  {
    var s1 := Save(Settled(s), first);
    assert s1.pending == s.pending && id !in s1.reviews.records;
    KeptNot(s1.pending, s1.reviews.records.Keys, id);
    RemoveAllKeeps(s1.pending, Kept(s1.pending, s1.reviews.records.Keys), id);
  }

  lemma ReopenRefuses(s: Session, first: Io, second: Io, id: CallId)
    requires Refusing(s, id) && s.phase.Down?
    ensures Refusing(Restored(s, s.saved.value, first, second), id)
  {
    var s1 := Loaded(s, s.saved.value);
    SettleRefuses(s1, first, second, id);
    SettleExtends(s1, first, second);
  }

  lemma RefusesStep(s: Session, a: Step, id: CallId)
    requires Refusing(s, id) && Allowed(s, a)
    ensures !a.DoStartTurn?
    ensures Refusing(Next(s, a), id)
  {
    if a.DoReopen? {
      ReopenRefuses(s, a.first, a.second, id);
    }
  }

  // The reopened session with an unresolved call: no turn ever starts again.
  lemma {:induction false} RefusesForever(s: Session, steps: seq<Step>, t: Session, id: CallId)
    requires Refusing(s, id) && Runs(s, steps, t)
    ensures forall k | 0 <= k < |steps| :: !steps[k].DoStartTurn?
    ensures t.handed == s.handed
    decreases |steps|
  {
    if steps != [] {
      RefusesStep(s, steps[0], id);
      HandsNothing(s, steps[0], id);
      RefusesForever(Next(s, steps[0]), steps[1..], t, id);
      assert forall k | 1 <= k < |steps| :: steps[k] == steps[1..][k - 1];
    }
  }

  lemma HandsNothing(s: Session, a: Step, id: CallId)
    requires Refusing(s, id) && Allowed(s, a)
    ensures Next(s, a).handed == s.handed
  {
  }

  // A crash while an ordinary call has no saved result leads there.
  lemma CrashRefuses(s: Session, id: CallId)
    requires SavedUnresolved(s.saved, id)
    ensures Refusing(Crash(s), id)
  {
  }
}
