// The condition of NativeVerdicts.OneVerdictIff is needed: an expert completes, the writes of
// its verdict are lost, the verdict is announced while the turn is settled, and after a crash
// the reopened session announces the same child as cancelled.
module NativeLostVerdict {
  import opened Prelude
  import opened ExpertReviews
  import opened Checkpoint
  import opened NativeSession
  import opened NativeStrayMessage
  import C = NativeCheckpointSafe
  import H = NativeHistory
  import V = NativeVerdicts

  const CALLED: seq<Item> := [Call(ASKED)]
  const ASK: Step := DoReply(CALLED, true, {}, true, [["k"]], "src", 2, Stored)
  const WORK: Step := DoExpertStart("c", 0, Stored, false, Stored)
  const REPORT: Report := Report("reader", "fine")
  const DONE: Step := DoExpertFinish("c", 0, Some(REPORT), Lost)
  const ABORT: Step := DoExpertsAbort(Lost, Lost)

  const WAITING: Child := Child("k", "reader", Waiting, None, NoError)
  const RUNNING: Child := Child("k", "reader", Running, None, NoError)
  const COMPLETED: Child := Child("k", "reader", Completed, Some(REPORT), NoError)

  function One(child: Child): Records {
    map["c" := Record("t", "src", [child])]
  }

  // The call is being executed: its child in memory, in the file, and its task.
  predicate Stands(s: Session, now: Child, filed: Child, job: Job) {
    && s.phase == Reviewing(0, [ASKED], 0, false)
    && s.reviews.records == One(now) && s.reviews.live == {"c"} && s.reviews.parent == Some("t")
    && s.reviews.tasks == map[("c", 0) := job]
    && s.pending == ["c"] && s.saved.Some? && s.saved.value.records == One(filed)
  }

  lemma CalledCalls()
    ensures CallsOf(CALLED) == [ASKED] && H.StrayFree(CALLED)
  {
    assert CALLED[1..] == [] && CallsOf([]) == [];
    assert CallsOf(CALLED) == [ASKED] + CallsOf(CALLED[1..]);
  }

  // The state after the reply was saved and its call handed over.
  lemma AskIs(s: Session, r: State)
    requires Begun(s) && r == Prepare(s.reviews, "c", ["reader"], ["k"], "src")
    ensures Allowed(s, ASK)
    ensures var b := s.(reviews := r, messages := s.messages + CALLED, pending := IdsOf([ASKED]));
      Next(s, ASK) == Hand(Save(b, Stored), 0, [ASKED], 0)
  {
    CalledCalls();
    Prepares(s.reviews, s.messages);
    OneCall(s, CALLED, r);
  }

  lemma Asked(s: Session)
    requires Begun(s)
    ensures Allowed(s, ASK) && Stands(Next(s, ASK), WAITING, WAITING, Queued(false))
  {
    var r := Prepare(s.reviews, "c", ["reader"], ["k"], "src");
    PreparedOne(s.reviews, r);
    AskIs(s, r);
    Handed(Save(s.(reviews := r, messages := s.messages + CALLED, pending := IdsOf([ASKED])), Stored));
  }

  lemma PreparedOne(s: State, r: State)
    requires MayPrepare(s, "c", ["reader"]) && r == Prepare(s, "c", ["reader"], ["k"], "src")
    requires s.records == map[] && s.parent == Some("t") && s.live == {} && s.tasks == map[]
    ensures r.records == One(WAITING) && r.parent == Some("t") && r.live == {} && r.tasks == map[]
  {
    assert NewChildren(["reader"], ["k"]) == [WAITING];
  }

  lemma Handed(b: Session)
    requires b.reviews.records == One(WAITING) && b.reviews.parent == Some("t") && b.reviews.live == {}
    requires b.reviews.tasks == map[]
    requires b.pending == ["c"] && b.saved.Some? && b.saved.value.records == One(WAITING)
    ensures Stands(Hand(b, 0, [ASKED], 0), WAITING, WAITING, Queued(false))
  {
    assert Kid(b.reviews.records, "c", 0) == WAITING;
    assert MayLaunch(b.reviews, "c");
    var tasks := map i: nat | i < 1 :: ("c", i) := Queued(false);
    assert ("c", 0) in tasks;
    assert tasks == map[("c", 0) := Queued(false)];
  }

  lemma Worked(s: Session)
    requires Stands(s, WAITING, WAITING, Queued(false))
    ensures Allowed(s, WORK) && Stands(Next(s, WORK), RUNNING, RUNNING, Asking(false))
  {
    assert Has(s.reviews.records, "c", 0) && Kid(s.reviews.records, "c", 0) == WAITING;
    assert [WAITING][0 := RUNNING] == [RUNNING];
    assert PutChild(s.reviews, "c", 0, RUNNING).records == One(RUNNING);
    assert map[("c", 0) := Queued(false)][("c", 0) := Asking(false)] == map[("c", 0) := Asking(false)];
  }

  lemma Finished(s: Session)
    requires Stands(s, RUNNING, RUNNING, Asking(false))
    ensures Allowed(s, DONE) && Stands(Next(s, DONE), COMPLETED, RUNNING, Ended(true))
  {
    assert Has(s.reviews.records, "c", 0) && Kid(s.reviews.records, "c", 0) == RUNNING;
    assert [RUNNING][0 := COMPLETED] == [COMPLETED];
    assert PutChild(s.reviews, "c", 0, COMPLETED).records == One(COMPLETED);
    assert map[("c", 0) := Asking(false)][("c", 0) := Ended(true)] == map[("c", 0) := Ended(true)];
  }

  lemma Aborted(s: Session)
    requires Stands(s, COMPLETED, RUNNING, Ended(true))
    ensures Allowed(s, ABORT)
    ensures var t := Next(s, ABORT);
      t.phase.Unwinding? && t.saved == s.saved && Event("k", Completed) in Announced(t)
  {
    var kept := Revoke(s.reviews).(records := map c | c in One(COMPLETED) && c in s.pending :: One(COMPLETED)[c]);
    assert kept.records == One(COMPLETED);
    assert InterruptRecords(One(COMPLETED))["c"].children[0] == COMPLETED;
    assert Event("k", Completed) in AllEvents(InterruptRecords(One(COMPLETED)));
  }

  lemma Reannounced(s: Session)
    requires s.phase.Unwinding? && s.saved.Some? && s.saved.value.records == One(RUNNING) && Accepted(s.saved.value)
    ensures Allowed(s, DoCrash) && Allowed(Next(s, DoCrash), OPEN)
    ensures var t := Next(Next(s, DoCrash), OPEN);
      Announced(s) <= Announced(t) && Event("k", Cancelled) in Announced(t)
  {
    assert InterruptRecords(One(RUNNING))["c"].children[0] == Interrupted(RUNNING);
    assert Event("k", Cancelled) in AllEvents(InterruptRecords(One(RUNNING)));
    assert "c" in One(RUNNING);
  }

  lemma {:induction false} RunsSnoc(s: Session, steps: seq<Step>, t: Session, a: Step)
    requires Runs(s, steps, t) && Allowed(t, a)
    ensures Runs(s, steps + [a], Next(t, a))
    decreases |steps|
  {
    var all := steps + [a];
    assert all[0] == if steps == [] then a else steps[0];
    if steps == [] {
      assert all[1..] == [];
    } else {
      RunsSnoc(Next(s, steps[0]), steps[1..], t, a);
      assert all[1..] == steps[1..] + [a];
    }
  }

  lemma RunsTwice(s: Session, steps: seq<Step>, t: Session, a: Step, b: Step)
    requires Runs(s, steps, t) && Allowed(t, a) && Allowed(Next(t, a), b)
    ensures Runs(s, steps + [a, b], Next(Next(t, a), b))
  {
    RunsSnoc(s, steps, t, a);
    RunsSnoc(s, steps + [a], Next(t, a), b);
    assert steps + [a] + [b] == steps + [a, b];
  }

  lemma RunsSix(a: seq<Step>, s: Session, b: Step, c: Step, d: Step, t: Session)
    requires Runs(FIRST, a, s) && Allowed(s, b) && Allowed(Next(s, b), c) && Allowed(Next(Next(s, b), c), d)
    requires t == Next(Next(Next(s, b), c), d)
    ensures Runs(FIRST, a + [b, c, d], t)
  {
    RunsTwice(FIRST, a, s, b, c);
    RunsSnoc(FIRST, a + [b, c], Next(Next(s, b), c), d);
    assert a + [b, c] + [d] == a + [b, c, d];
  }

  const TURN: seq<Step> := [OPEN, START, ASK] + [WORK, DONE, ABORT]

  // The expert is asked, completes, and the turn is settled; no write of its verdict lands.
  lemma Lose(s: Session) returns (t: Session)
    requires Stands(s, WAITING, WAITING, Queued(false))
    ensures Allowed(s, WORK) && Allowed(Next(s, WORK), DONE) && Allowed(Next(Next(s, WORK), DONE), ABORT)
    ensures t == Next(Next(Next(s, WORK), DONE), ABORT)
    ensures t.phase.Unwinding? && t.saved.Some? && t.saved.value.records == One(RUNNING)
    ensures Event("k", Completed) in Announced(t)
  {
    Worked(s);
    Finished(Next(s, WORK));
    Aborted(Next(Next(s, WORK), DONE));
    t := Next(Next(Next(s, WORK), DONE), ABORT);
  }

  lemma TurnRuns() returns (t: Session)
    ensures Runs(FIRST, TURN, t)
    ensures t.phase.Unwinding? && t.saved.Some? && t.saved.value.records == One(RUNNING)
    ensures Event("k", Completed) in Announced(t)
  {
    var s := Next(Started(), ASK);
    StartedIs();
    Asked(Started());
    RunsAre(FIRST, OPEN, START, ASK, s);
    t := Lose(s);
    RunsSix([OPEN, START, ASK], s, WORK, DONE, ABORT, t);
  }

  lemma TurnStraysNot()
    ensures C.AllStrayFree(TURN)
  {
    CalledCalls();
  }

  // A run of eight steps that announces two verdicts for one child.
  lemma TwoVerdicts() returns (t: Session)
    ensures Runs(FIRST, TURN + [DoCrash, OPEN], t)
    ensures Event("k", Completed) in Announced(t) && Event("k", Cancelled) in Announced(t)
    ensures !OneVerdict(Announced(t)) && !V.AllAgree(FIRST, TURN + [DoCrash, OPEN])
  {
    var s := TurnRuns();
    TurnStraysNot();
    C.SavedIsAccepted(TURN, s);
    Reannounced(s);
    t := Next(Next(s, DoCrash), OPEN);
    RunsTwice(FIRST, TURN, s, DoCrash, OPEN);
    V.OneVerdictIff(TURN + [DoCrash, OPEN], t);
  }
}
