// The object of lg_cli/native_runtime.py together with the history side of
// lg_cli/native_delegation.py. Each method is one stretch between two suspension points; its
// contract is the matching step of NativeSession. `executing` says where the turn's coroutine
// is suspended, and every write of the checkpoint has its fate as a parameter.
module NativeRuntimeObject {
  import opened Prelude
  import opened ExpertReviews
  import opened Checkpoint
  import NS = NativeSession
  import opened BoundedReviewsObject

  class NativeRuntime {
    var messages: seq<Item>
    var pending: seq<CallId>
    var steering: seq<string>
    var turnId: Option<Turn>
    var phase: NS.Phase
    var checkpointFailed: bool
    var checkpoint: Option<Image>
    const delegations: BoundedReviews
    ghost var handed: seq<CallId>
    ghost var again: set<Event>

    ghost function Now(): NS.Session
      reads this, delegations
    {
      NS.Session(messages, pending, steering, delegations.Now(), phase, checkpointFailed, checkpoint, handed, again)
    }

    // The delegations see the turn of their owner.
    ghost predicate Valid()
      reads this, delegations
    {
      turnId == delegations.parent
    }

    // A new process for a session that ended as `before`.
    constructor (ghost before: NS.Session, file: Option<Image>)
      requires before.saved == file
      ensures Valid() && Now() == NS.Crash(before) && fresh(delegations)
    {
      messages, pending, steering, turnId, phase := [], [], [], None, NS.Down;
      checkpointFailed, checkpoint, handed, again := false, file, before.handed, before.again;
      delegations := new BoundedReviews.Again(before.reviews);
    }

    method Save(io: Io) returns (ok: bool)
      modifies this`checkpoint, this`checkpointFailed
      ensures ok == !io.Raises() && Now() == NS.Save(old(Now()), io)
    {
      var image := Image(messages, pending, delegations.records);
      if io.Lands() { checkpoint := Some(image); }
      if io.Raises() { checkpointFailed := true; }
      ok := !io.Raises();
    }

    // ---------------------------------------------------------------- settling

    // Expert calls that never reached the history are dropped.
    method DropUnregistered()
      modifies delegations
      ensures delegations.Now() == old(delegations.Now()).(
        live := delegations.live,
        records := map c | c in old(delegations.records) && c in pending :: old(delegations.records)[c])
      ensures delegations.live <= old(delegations.live)
    {
      ghost var start := delegations.Now();
      var left := delegations.records.Keys;
      while left != {}
        invariant left <= start.records.Keys && delegations.live <= start.live
        invariant delegations.Now() == start.(live := delegations.live,
          records := map c | c in start.records && (c in pending || c in left) :: start.records[c])
      {
        var call :| call in left;
        left := left - {call};
        if call !in pending { delegations.Discard(call); }
        assert delegations.records == map c | c in start.records && (c in pending || c in left) :: start.records[c];
      }
    }

    method SettleInterrupted(first: Io, second: Io) returns (ok: bool)
      modifies this, delegations
      ensures Now() == NS.SettleInterrupted(old(Now()), first, second) && ok == !NS.SettleRaises(first, second)
      ensures turnId == old(turnId) && delegations.parent == old(delegations.parent)
    {
      ghost var start := Now();
      DropUnregistered();
      delegations.SettleInterrupted();
      assert Now() == NS.Settled(start);
      ok := Save(first);
      if !ok { return; }
      ghost var settled := Now();
      Resolve();
      assert Now() == NS.Resolved(settled);
      ok := Save(second);
    }

    // Settled calls get an interrupted result in the history.
    method Resolve()
      modifies this`messages, this`pending, delegations
      ensures Now() == NS.Resolved(old(Now()))
      ensures delegations.parent == old(delegations.parent)
    {
      Answer(NS.Kept(pending, delegations.records.Keys), delegations.records);
      delegations.Adopt(map[]);
    }

    method Answer(ids: seq<CallId>, r: Records)
      requires forall id | id in ids :: id in r
      modifies this`messages, this`pending
      ensures messages == old(messages) + NS.Outputs(ids, r) && pending == NS.RemoveAll(old(pending), ids)
    {
      for i := 0 to |ids|
        invariant messages == old(messages) + NS.Outputs(ids[..i], r) && pending == NS.RemoveAll(old(pending), ids[..i])
      {
        assert ids[..i + 1][..i] == ids[..i];
        assert NS.Outputs(ids[..i + 1], r) == NS.Outputs(ids[..i], r) + [Output(ids[i], Interruption(r[ids[i]]))];
        messages := messages + [Output(ids[i], Interruption(r[ids[i]]))];
        pending := RemoveFirst(pending, ids[i]);
      }
      assert ids[..|ids|] == ids;
    }

    // ---------------------------------------------------------------- a turn

    // `run` up to the creation of its task.
    method StartTurn(turn: Turn, text: string, io: Io) returns (ok: bool)
      requires Valid() && NS.MayRun(Now())
      modifies this, delegations
      ensures Valid() && Now() == NS.StartTurn(old(Now()), turn, text, io)
      ensures ok == phase.Thinking?
    {
      turnId := Some(turn);
      delegations.HostTurn(turnId);
      ok := delegations.Begin(turnId);
      if !ok {
        phase := NS.Wedged;
        return;
      }
      messages := messages + [Message(User, text, None)];
      ok := Save(io);
      phase := if ok then NS.Thinking(0) else NS.Wedged;
    }

    // Why a batch of calls is refused.
    method CheckCalls(calls: seq<ToolCall>, tools: set<ToolName>, delegates: bool) returns (fine: bool)
      ensures fine <==> NS.CallsFine(messages, calls, tools, delegates)
    {
      var repeated := exists i, j | 0 <= i < j < |calls| :: calls[i].id == calls[j].id;
      if |calls| > NS.MAX_CALLS || repeated { return false; }
      var historical := CallIds(messages);
      for k := 0 to |calls|
        invariant forall i | 0 <= i < k :: calls[i].id != "" && calls[i].id !in historical
        invariant forall i | 0 <= i < k :: calls[i].name in tools || (delegates && calls[i].name == DELEGATE)
      {
        var call := calls[k];
        if call.name !in tools && !(delegates && call.name == DELEGATE) { return false; }
        if call.id == "" || call.id in historical { return false; }
      }
      fine := true;
    }

    // The expert calls of one reply, in order; `limit` is where the host policy refuses.
    method PrepareAll(calls: seq<ToolCall>, kids: seq<seq<ChildId>>, source: string, limit: nat) returns (ok: bool)
      requires Valid() && |kids| == |calls|
      modifies delegations
      ensures Valid()
      ensures (delegations.Now(), ok) == NS.PrepareAll(old(delegations.Now()), messages, calls, kids, source, limit)
    {
      ghost var start := delegations.Now();
      for i := 0 to |calls|
        invariant Valid()
        invariant NS.PrepareAll(start, messages, calls, kids, source, limit)
          == NS.PrepareAll(delegations.Now(), messages, calls[i..], kids[i..], source, if limit < i then 0
            else limit - i)
      {
        var call := calls[i];
        assert calls[i..][1..] == calls[i + 1..] && kids[i..][1..] == kids[i + 1..];
        if call.name == DELEGATE {
          if limit <= i || NS.Mentioned(messages, call.id) || |kids[i]| != |call.experts| {
            return false;
          }
          var prepared := delegations.Prepare(call.id, call.experts, kids[i], source, turnId);
          if !prepared { return false; }
        }
      }
      ok := true;
    }

    method NextRound(round: nat)
      modifies this`phase
      ensures Now() == NS.NextRound(old(Now()), round)
    {
      phase := if round + 1 < NS.ROUNDS then NS.Thinking(round + 1) else NS.Unwinding;
    }

    // The next call of a saved batch is handed over, or the round ends.
    method Hand(round: nat, calls: seq<ToolCall>, at: nat)
      requires Valid() && at <= |calls|
      modifies this`phase, this`handed, delegations
      ensures Valid() && Now() == NS.Hand(old(Now()), round, calls, at)
    {
      if at == |calls| {
        NextRound(round);
        return;
      }
      var id := calls[at].id;
      handed := handed + [id];
      if calls[at].name != DELEGATE {
        phase := NS.Calling(round, calls, at);
        return;
      }
      var launched := false;
      if id in delegations.records { launched := delegations.Launch(id); }
      phase := if launched then NS.Reviewing(round, calls, at, false) else NS.Unwinding;
    }

    // Steering messages take the place of the reply's calls.
    method Steered(round: nat, final: string, io: Io)
      modifies this
      ensures var s := old(Now());
        var s1 := NS.Save(s.(messages :=
          s.messages + NS.Answer(final) + NS.Notes(s.steering), steering := []), io);
        Now() == if io.Raises() then s1.(phase := NS.Unwinding) else NS.NextRound(s1, round)
      ensures turnId == old(turnId)
    {
      if final != "" { messages := messages + [Message(Assistant, final, None)]; }
      ghost var front := messages;
      var texts := steering;
      for i := 0 to |texts|
        invariant messages == front + NS.Notes(texts[..i])
        invariant Now() == old(Now()).(messages := messages) && turnId == old(turnId)
      {
        assert NS.Notes(texts[..i + 1]) == NS.Notes(texts[..i]) + [Message(User, texts[i], None)];
        messages := messages + [Message(User, texts[i], None)];
      }
      assert texts[..|texts|] == texts;
      steering := [];
      var ok := Save(io);
      if ok { NextRound(round); } else { phase := NS.Unwinding; }
    }

    // What one model reply leads to.
    method Reply(output: seq<Item>, schemaOk: bool, tools: set<ToolName>, delegates: bool,
                 kids: seq<seq<ChildId>>, source: string, limit: nat, io: Io)
      requires Valid() && phase.Thinking? && |kids| == |NS.CallsOf(output)|
      modifies this, delegations
      ensures Valid()
      ensures Now() == NS.Reply(old(Now()), output, schemaOk, tools, delegates, kids, source, limit, io)
    {
      var round, calls := phase.round, NS.CallsOf(output);
      if steering != [] {
        Steered(round, NS.FinalText(output), io);
        return;
      }
      if calls == [] {
        if NS.FinalText(output) != "" && schemaOk {
          messages := messages + NS.MessagesOf(output);
          var _ := Save(io);
        }
        phase := NS.Unwinding;
        return;
      }
      var fine := CheckCalls(calls, tools, delegates);
      if !fine {
        phase := NS.Unwinding;
        return;
      }
      Batch(round, calls, output, kids, source, limit, io);
    }

    // A batch of calls that passed the checks: prepared, saved, and the first one handed over.
    method Batch(round: nat, calls: seq<ToolCall>, output: seq<Item>, kids: seq<seq<ChildId>>, source: string,
                 limit: nat, io: Io)
      requires Valid() && |kids| == |calls|
      modifies this, delegations
      ensures Valid()
      ensures var s := old(Now());
        var (r, ok) := NS.PrepareAll(s.reviews, s.messages, calls, kids, source, limit);
        var s1 := NS.Save(s.(reviews := r, messages := s.messages + output, pending := NS.IdsOf(calls)), io);
        Now() == if !ok then s.(reviews := r, phase := NS.Unwinding)
          else if io.Raises() then s1.(phase := NS.Unwinding) else NS.Hand(s1, round, calls, 0)
    {
      var prepared := PrepareAll(calls, kids, source, limit);
      if !prepared {
        phase := NS.Unwinding;
        return;
      }
      messages := messages + output;
      pending := NS.IdsOf(calls);
      var ok := Save(io);
      if ok { Hand(round, calls, 0); } else { phase := NS.Unwinding; }
    }

    // The call leaves `pending` and the records; both refuse a call they do not hold.
    method Retire(id: CallId) returns (ok: bool)
      requires Valid()
      modifies this`pending, delegations
      ensures Valid()
      ensures var s := old(Now());
        if id !in s.pending then !ok && Now() == s
        else if id in s.reviews.live then !ok && Now() == s.(pending := RemoveFirst(s.pending, id))
        else ok && Now() == s.(pending := RemoveFirst(s.pending, id), reviews := Finish(s.reviews, id))
    {
      if id !in pending { return false; }
      pending := RemoveFirst(pending, id);
      ok := delegations.Finish(id);
    }

    // A call is handed over only after the history that names it was saved.
    method SaveThenHand(io: Io, round: nat, calls: seq<ToolCall>, at: nat)
      requires Valid() && at <= |calls|
      modifies this, delegations
      ensures Valid() && Now() == NS.SavedHand(old(Now()), io, round, calls, at)
    {
      var ok := Save(io);
      if ok { Hand(round, calls, at); } else { phase := NS.Unwinding; }
    }

    method AfterResult(id: CallId, io: Io, round: nat, calls: seq<ToolCall>, at: nat)
      requires Valid() && at <= |calls|
      modifies this, delegations
      ensures Valid() && Now() == NS.AfterResult(old(Now()), id, io, round, calls, at)
    {
      var ok := Retire(id);
      if ok { SaveThenHand(io, round, calls, at); } else { phase := NS.Unwinding; }
    }

    // A call returned.
    method Complete(data: Data, io: Io)
      requires Valid() && (phase.Calling? || phase.Delivering?) && phase.at < |phase.calls|
      modifies this, delegations
      ensures Valid() && Now() == NS.Complete(old(Now()), data, io)
    {
      var round, calls, at := phase.round, phase.calls, phase.at;
      messages := messages + [Output(calls[at].id, data)];
      assert Now() == old(Now()).(messages := old(messages) + [Output(calls[at].id, data)]);
      AfterResult(calls[at].id, io, round, calls, at + 1);
    }

    // Only a turn that is not inside a call can be steered.
    method Steer(text: string) returns (ok: bool)
      modifies this`steering
      ensures ok == (turnId.Some? && !phase.Calling? && !phase.Reviewing? && !phase.Delivering?)
      ensures Now() == if ok then old(Now()).(steering := old(steering) + [text]) else old(Now())
    {
      ok := turnId.Some? && !phase.Calling? && !phase.Reviewing? && !phase.Delivering?;
      if ok { steering := steering + [text]; }
    }

    // ---------------------------------------------------------------- interruption and recovery

    // Settles what is recorded, if anything is.
    method SettleRecords(first: Io, second: Io) returns (ok: bool)
      modifies this, delegations
      ensures var s := old(Now());
        && Now() == (if s.reviews.records != map[] then NS.SettleInterrupted(s, first, second) else s)
        && ok == !(s.reviews.records != map[] && NS.SettleRaises(first, second))
      ensures turnId == old(turnId) && delegations.parent == old(delegations.parent) && phase == old(phase)
    {
      ok := true;
      if delegations.records != map[] { ok := SettleInterrupted(first, second); }
    }

    method Interrupt(first: Io, second: Io)
      requires Valid() && NS.HasTask(phase)
      modifies this, delegations
      ensures Valid() && Now() == NS.Interrupt(old(Now()), first, second)
    {
      var ok := SettleRecords(first, second);
      if !ok { return; }
      phase := if phase.Reviewing? then phase.(cancelled := true) else NS.Unwinding;
    }

    method LeaveTurn()
      requires Valid()
      modifies this, delegations
      ensures Valid() && Now() == NS.TurnOver(old(Now()))
    {
      turnId := None;
      delegations.HostTurn(None);
      phase := NS.Idle;
    }

    // The `finally` of `run`.
    method Unwind(first: Io, second: Io)
      requires Valid()
      modifies this, delegations
      ensures Valid() && Now() == NS.Unwind(old(Now()), first, second)
    {
      var _ := SettleRecords(first, second);
      LeaveTurn();
    }

    // `start` in a new process: the checkpoint is read, checked and its expert calls settled,
    // which announces their children again. A refused checkpoint, or a failed write, leaves no
    // session.
    method Start(first: Io, second: Io) returns (ok: bool)
      requires Valid() && Now() == NS.Crash(Now())
      modifies this, delegations
      ensures Reads(NS.Reopen(old(Now()), first, second), ok)
    {
      if checkpoint.None? {
        phase := NS.Idle;
        return true;
      }
      var image := checkpoint.value;
      var fine := Readable(image);
      if !fine { return false; }
      ok := Load(image, first, second);
    }

    method Readable(image: Image) returns (fine: bool)
      ensures fine <==> Accepted(image)
    {
      fine := ValidateCheckpoint(image.messages, image.pending);
      if fine { fine := Restore(image); }
    }

    method Load(image: Image, first: Io, second: Io) returns (ok: bool)
      requires Valid() && Now() == NS.Crash(Now())
      modifies this, delegations
      ensures Reads(NS.Restored(old(Now()), image, first, second), ok)
    {
      ghost var down := Now();
      messages, pending, phase := image.messages, image.pending, NS.Idle;
      delegations.Adopt(image.records);
      assert Now() == NS.Loaded(down, image);
      if image.records == map[] { return true; }
      RestoredIs(down, image, first, second);
      ok := SettleAgain(image.records, first, second);
    }

    // A settlement whose announcements are kept apart.
    method SettleAgain(records: Records, first: Io, second: Io) returns (ok: bool)
      modifies this, delegations
      ensures Now() == Apart(NS.SettleInterrupted(old(Now()), first, second), old(Now()), records)
      ensures ok == !NS.SettleRaises(first, second)
      ensures turnId == old(turnId) && delegations.parent == old(delegations.parent)
    {
      ghost var told := delegations.told;
      ok := SettleInterrupted(first, second);
      again := again + AllEvents(InterruptRecords(records));
      delegations.Apart(told);
    }

    // The object is the session, if there is one; the file and what was announced are in any
    // case.
    ghost predicate Reads(s: NS.Session, ok: bool)
      reads this, delegations
    {
      && (ok <==> s.phase.Idle?) && checkpoint == s.saved && again == s.again && delegations.told == s.reviews.told
      && (ok ==> Valid() && Now() == s)
    }
  }

  // A session after a settlement whose announcements are kept apart from those before it.
  function Apart(u: NS.Session, s: NS.Session, records: Records): NS.Session {
    u.(reviews := u.reviews.(told := s.reviews.told), again := u.again + AllEvents(InterruptRecords(records)))
  }

  // Settling in a new process touches only the history, the pending calls, the file and the
  // log of what was announced.
  lemma RestoredIs(down: NS.Session, image: Image, first: Io, second: Io)
    requires down == NS.Crash(down) && image.records != map[]
    ensures var s := NS.Loaded(down, image);
      var u, t := Apart(NS.SettleInterrupted(s, first, second), s, image.records),
        NS.Restored(down, image, first, second);
      && t.saved == u.saved && t.again == u.again && t.reviews.told == u.reviews.told
      && (t.phase.Idle? <==> !NS.SettleRaises(first, second)) && (!NS.SettleRaises(first, second) ==> t == u)
  {
    assert StopAll(NS.Loaded(down, image).reviews.tasks) == map[];
  }
}
