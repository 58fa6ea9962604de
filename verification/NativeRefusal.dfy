// A call that was handed over and has no saved result is never replayed: after a crash the
// session refuses to run, for ever.
module NativeRefusal {
  import opened Prelude
  import opened ExpertReviews
  import opened Checkpoint
  import opened NativeSession
  import A = NativeAtMostOnce
  import H = NativeHistory

  // The history holds an ordinary call of this id and no result for it.
  ghost predicate Unfinished(saved: Option<Image>, id: CallId) {
    && saved.Some? && id !in OutputIds(saved.value.messages)
    && exists call :: Call(call) in saved.value.messages && call.id == id && call.name != DELEGATE
  }

  lemma OrdinaryHasNoRecord(image: Image, id: CallId)
    requires Accepted(image) && Unfinished(Some(image), id)
    ensures id !in image.records
  {
    var call :| Call(call) in image.messages && call.id == id && call.name != DELEGATE;
    if id in image.records {
      assert RecordAccepted(image, id, image.records[id]);
      H.MatchedCallIsDelegate(image.messages, call, Names(image.records[id]));
    }
  }

  // What was handed over without a saved result is pending in the file.
  lemma UnfinishedIsPending(steps: seq<Step>, t: Session, id: CallId)
    requires Runs(FIRST, steps, t) && id in t.handed && Unfinished(t.saved, id) && Accepted(t.saved.value)
    ensures A.SavedUnresolved(t.saved, id)
  {
    var image := t.saved.value;
    A.AtMostOnce(steps, t);
    var k :| 0 <= k < |t.handed| && t.handed[k] == id;
    HistoryMeaning(image.messages, image.pending);
    OrdinaryHasNoRecord(image, id);
  }

  // A checkpoint that the reader refuses leaves no session to run.
  lemma {:induction false} RefusedStays(s: Session, steps: seq<Step>, t: Session)
    requires s.phase.Down? && s.saved.Some? && !Accepted(s.saved.value) && Runs(s, steps, t)
    ensures forall k | 0 <= k < |steps| :: !steps[k].DoStartTurn?
    ensures t.handed == s.handed
    decreases |steps|
  {
    if steps != [] {
      RefusedStays(Next(s, steps[0]), steps[1..], t);
      assert forall k | 1 <= k < |steps| :: steps[k] == steps[1..][k - 1];
    }
  }

  // Over all runs: once an ordinary call was handed over and the process ended before its
  // result was saved, no turn ever starts again and no call is handed over again, however
  // often the session is reopened.
  lemma NeverReplayed(steps: seq<Step>, t: Session, id: CallId, more: seq<Step>, u: Session)
    requires Runs(FIRST, steps, t) && id in t.handed && Unfinished(t.saved, id)
    requires Runs(Crash(t), more, u)
    ensures forall k | 0 <= k < |more| :: !more[k].DoStartTurn?
    ensures u.handed == t.handed
  {
    if Accepted(t.saved.value) {
      UnfinishedIsPending(steps, t, id);
      A.CrashRefuses(t, id);
      A.RefusesForever(Crash(t), more, u, id);
    } else {
      RefusedStays(Crash(t), more, u);
    }
  }
}
