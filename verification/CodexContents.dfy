// What the session file of the Codex adapter holds after each step: the children a call
// asked for before they are asked, their answers before they are told, and how each call ended.
module CodexContents {
  import opened Prelude
  import opened ExpertReviews
  import opened CodexReviews
  import P = CodexReviewsProofs
  import V = ExpertVerdicts

  // ---------------------------------------------------------------- one save

  // The file is the book, and the book took over what the protocol holds: every record it has,
  // the experts used and the calls seen. How each call ended is as before.
  ghost predicate Taken(b: Book, r: State, t: Codex) {
    && t.book.Some?
    && t.file == t.book
    && var c := t.book.value;
      && c.root == b.root
      && c.turn == b.turn
      && c.used == r.used
      && c.seen == r.seen
      && c.calls.Keys == b.calls.Keys
      && forall call | call in b.calls ::
        && c.calls[call].experts == b.calls[call].experts
        && c.calls[call].settled == b.calls[call].settled
        && c.calls[call].interrupted == b.calls[call].interrupted
        && c.calls[call].record == if call in r.records then r.records[call] else b.calls[call].record
  }

  lemma SaveTakes(s: Codex, io: Io)
    requires s.book.Some? && !SaveRaises(s, io)
    ensures Taken(s.book.value, s.reviews, Save(s, io))
    ensures Save(s, io) == s.(book := Save(s, io).book, file := Save(s, io).file)
  {
  }

  // A failed save closes the adapter for good: no worker is live and none goes on.
  lemma LostSaveCloses(s: Codex, io: Io)
    requires s.book.Some? && !s.failed && Entered(s) && io.Raises()
    ensures var t := Save(s, io);
      && t.failed && t.revoked
      && t.reviews.live == {}
      && (forall k | k in t.reviews.tasks :: t.reviews.tasks[k].Ended? || t.reviews.tasks[k].cancelled)
      && t.reviews.records == s.reviews.records
      && t.reviews.told == s.reviews.told
  {
    forall k | k in s.reviews.tasks
      ensures Stopped(s.reviews.tasks[k]).Ended? || Stopped(s.reviews.tasks[k]).cancelled
    {
    }
  }

  // ---------------------------------------------------------------- a call up to its workers

  // The guards of a call, and the save that must land before any worker starts.
  ghost predicate Launchable(s: Codex, a: Step)
    requires a.DoCall?
  {
    && s.restored && !s.failed && !s.revoked && a.admitted && s.book.Some?
    && s.reviews.parent.Some?
    && s.reviews.parent == s.reviews.parentTurn
    && a.call !in s.book.value.calls
    && a.call !in s.reviews.seen
    && 1 <= |a.names| <= 2
    && (forall i, j | 0 <= i < j < |a.names| :: a.names[i] != a.names[j])
    && (forall i | 0 <= i < |a.names| :: a.names[i] !in s.reviews.used)
    && |s.reviews.used| + |a.names| <= 2
    && a.hashed
    && a.io.Stored?
  }

  lemma ElementsSize(names: seq<Expert>, used: set<Expert>)
    requires 1 <= |names| <= 2
    requires |names| == 2 ==> names[0] != names[1]
    requires forall i | 0 <= i < |names| :: names[i] !in used
    ensures |used + Elements(names)| == |used| + |names|
  {
    if |names| == 1 {
      assert used + Elements(names) == used + {names[0]};
    } else {
      assert used + Elements(names) == used + {names[0]} + {names[1]};
    }
  }

  lemma LaunchableIff(s: Codex, a: Step)
    requires a.DoCall?
    ensures Launchable(s, a) <==> MayCall(s, a.call, a.names, a.admitted) && a.hashed && a.io.Stored?
  {
    if 1 <= |a.names| <= 2 && (|a.names| == 2 ==> a.names[0] != a.names[1])
      && (forall i | 0 <= i < |a.names| :: a.names[i] !in s.reviews.used) {
      ElementsSize(a.names, s.reviews.used);
    }
    assert forall i | 0 <= i < |a.names| :: a.names[i] in a.names;
  }

  // What the file says of a call whose workers start: its experts, one waiting child for each,
  // with the ids drawn for them, in the current turn, and how it ended is open.
  ghost predicate WrittenAhead(s: Codex, a: Step, t: Codex)
    requires a.DoCall? && |a.ids| == |a.names|
  {
    && t.file.Some?
    && t.file == t.book
    && a.call in t.file.value.calls
    && var entry := t.file.value.calls[a.call];
      && entry.experts == a.names
      && !entry.settled
      && !entry.interrupted
      && Some(entry.record.parentTurn) == s.reviews.parent
      && entry.record.source == a.source
      && |entry.record.children| == |a.names|
      && (forall i | 0 <= i < |a.names| ::
        entry.record.children[i] == Child(a.ids[i], a.names[i], Waiting, None, NoError))
      && t.file.value.used == s.reviews.used + Elements(a.names)
      && t.file.value.seen == s.reviews.seen + {a.call}
  }

  lemma LaunchedIs(s: Codex, a: Step, q: State)
    requires P.Good(s) && a.DoCall? && Allowed(s, a) && MayCall(s, a.call, a.names, a.admitted) && a.hashed
    requires q == P.Prepared(s.reviews, a.call, a.names, a.ids, a.source)
    ensures a.call !in s.reviews.live && Entered(P.Launched(s, a.call, a.names, q))
    ensures a.io.Stored? ==> Next(s, a) == Save(P.Launched(s, a.call, a.names, q), a.io)
    ensures !a.io.Stored? ==> exists saved: Codex ::
      saved.callers == s.callers && saved.book.Some? && Next(s, a) == Ruined(saved, a.call, a.first, a.second)
  {
    assert a.call !in s.reviews.live;
    P.PreparedWaits(s.reviews, a.call, a.names, a.ids, a.source);
    P.CallIs(s, a.call, a.names, a.ids, a.source, q, a.io, a.first, a.second);
    P.StartedIs(s, a.call, a.names, q, a.io, a.first, a.second);
  }

  lemma LaunchedWrites(s: Codex, a: Step, q: State, t: Codex)
    requires a.DoCall? && s.book.Some? && MayPrepare(s.reviews, a.call, a.names) && |a.ids| == |a.names|
    requires q == P.Prepared(s.reviews, a.call, a.names, a.ids, a.source)
    requires t == Save(P.Launched(s, a.call, a.names, q), Stored)
    requires !SaveRaises(P.Launched(s, a.call, a.names, q), Stored)
    ensures WrittenAhead(s, a, t)
    ensures t.callers == s.callers[a.call := Executing] && t.reviews.live == s.reviews.live + {a.call}
  {
    SaveTakes(P.Launched(s, a.call, a.names, q), Stored);
  }

  // Revocation settles the protocol and lets go of the call that failed.
  lemma RuinedCloses(s: Codex, call: CallId, first: Io, second: Io)
    requires s.book.Some?
    ensures var t := Ruined(s, call, first, second);
      t.callers == s.callers && t.revoked && t.reviews.live == {} && call !in t.reviews.records
  {
    P.RevokedDead(s, first, second);
    RevokedKeeps(s, first, second);
  }

  lemma SaveKeeps(s: Codex, io: Io)
    requires s.book.Some?
    ensures var t := Save(s, io); t.callers == s.callers && (s.revoked ==> t.revoked) && t.book.Some?
  {
  }

  lemma RevokedKeeps(s: Codex, first: Io, second: Io)
    requires s.book.Some?
    ensures var t := RevokeAll(s, first, second); t.callers == s.callers && t.revoked
  {
    var r := s.(revoked := true, reviews := Settle(s.reviews));
    SaveKeeps(r, first);
    var s1 := Save(r, first);
    if !SaveRaises(s, first) {
      SaveKeeps(EntriesDone(s1), second);
    }
  }

  lemma RefusedIs(s: Codex, a: Step)
    requires P.Good(s) && a.DoCall? && Allowed(s, a) && !MayCall(s, a.call, a.names, a.admitted)
    ensures Next(s, a) == s
  {
  }

  lemma UnhashedIs(s: Codex, a: Step)
    requires a.DoCall? && Allowed(s, a) && MayCall(s, a.call, a.names, a.admitted) && !a.hashed
    ensures exists saved: Codex ::
      saved.callers == s.callers && saved.book.Some? && Next(s, a) == Ruined(saved, a.call, a.first, a.second)
  {
    var q := P.Prepared(s.reviews, a.call, a.names, a.ids, a.source);
    P.CallUnhashedIs(s, a.call, a.names, a.ids, a.source, q, a.io, a.first, a.second);
    assert s.(reviews := q).callers == s.callers;
  }

  // The workers of a call start exactly when its guards hold and its entry was saved, and then
  // the file says so. A call refused by the guards changes nothing; one that cannot be saved
  // revokes the adapter.
  lemma CallStartsIff(steps: seq<Step>, s: Codex, a: Step)
    requires Runs(START, steps, s) && a.DoCall? && Allowed(s, a) && a.call !in s.callers
    ensures var t := Next(s, a);
      && (a.call in t.callers <==> Launchable(s, a))
      && (Launchable(s, a) ==> WrittenAhead(s, a, t) && t.reviews.live == s.reviews.live + {a.call})
      && (!Launchable(s, a) ==> t == s || (t.revoked && t.reviews.live == {} && a.call !in t.reviews.records))
  {
    P.StartIsGood();
    P.RunGood(START, steps, s);
    LaunchableIff(s, a);
    if !MayCall(s, a.call, a.names, a.admitted) {
      RefusedIs(s, a);
    } else if a.hashed {
      var q := P.Prepared(s.reviews, a.call, a.names, a.ids, a.source);
      LaunchedIs(s, a, q);
      if a.io.Stored? {
        LaunchedWrites(s, a, q, Next(s, a));
      } else {
        var saved: Codex :| saved.callers == s.callers && saved.book.Some?
          && Next(s, a) == Ruined(saved, a.call, a.first, a.second);
        RuinedCloses(saved, a.call, a.first, a.second);
      }
    } else {
      UnhashedIs(s, a);
      var saved: Codex :| saved.callers == s.callers && saved.book.Some?
        && Next(s, a) == Ruined(saved, a.call, a.first, a.second);
      RuinedCloses(saved, a.call, a.first, a.second);
    }
  }

  // ---------------------------------------------------------------- workers

  // The file holds this child of a call whose entry is open.
  ghost predicate Filed(file: Option<Book>, call: CallId, i: nat, child: Child) {
    && file.Some?
    && call in file.value.calls
    && i < |file.value.calls[call].record.children|
    && file.value.calls[call].record.children[i] == child
  }

  lemma SavedChild(s: Codex, io: Io, call: CallId, i: nat)
    requires s.book.Some? && !SaveRaises(s, io) && Has(s.reviews.records, call, i)
    ensures Filed(Save(s, io).file, call, i, s.reviews.records[call].children[i])
  {
    SaveTakes(s, io);
  }

  lemma StartIs(s: Codex, call: CallId, i: nat, first: Io, second: Io, begun: Codex)
    requires s.book.Some? && Has(s.reviews.records, call, i)
    requires begun == s.(reviews := StartWork(s.reviews, call, i, false, false, false))
    ensures var t := ExpertStart(s, call, i, first, false, second);
      && t.file == Save(begun, first).file
      && (SaveRaises(begun, first) ==> t.reviews.asked == s.reviews.asked)
      && (!SaveRaises(begun, first) ==>
            exists ok :: t.reviews == StartWork(s.reviews, call, i, true, false, ok))
    ensures begun.reviews.records[call].children == s.reviews.records[call].children[
      i := s.reviews.records[call].children[i].(state := Running)]
  {
    var t := ExpertStart(s, call, i, first, false, second);
    var s1 := Save(begun, first);
    assert s1.reviews.asked == s.reviews.asked;
    if !SaveRaises(begun, first) {
      assert t.reviews == StartWork(s.reviews, call, i, true, false, !SaveRaises(s1, second));
    }
  }

  lemma SaveAsksNobody(s: Codex, io: Io)
    requires s.book.Some?
    ensures Save(s, io).reviews.asked == s.reviews.asked && Save(s, io).book.Some?
  {
  }

  lemma ExpiredWork(r: State, call: CallId, i: nat, saved: bool, ok: bool)
    requires Has(r.records, call, i)
    ensures StartWork(r, call, i, saved, true, ok).asked == r.asked
  {
  }

  lemma ExpiredAsksNobody(s: Codex, call: CallId, i: nat, first: Io, second: Io)
    requires s.book.Some? && Has(s.reviews.records, call, i)
    ensures ExpertStart(s, call, i, first, true, second).reviews.asked == s.reviews.asked
  {
    ExpiredWork(s.reviews, call, i, false, false);
    var begun := s.(reviews := StartWork(s.reviews, call, i, false, true, false));
    SaveAsksNobody(begun, first);
    ExpiredContinues(s, Save(begun, first), call, i, second);
    assert ExpertStart(s, call, i, first, true, second) ==
      if SaveRaises(begun, first) then Save(begun, first) else Continued(s, Save(begun, first), call, i, second);
  }

  // The rest of an expired worker, after its first save.
  function Continued(s: Codex, s1: Codex, call: CallId, i: nat, second: Io): Codex
    requires s1.book.Some? && Has(s.reviews.records, call, i)
  {
    var s2 := s1.(reviews := StartWork(s.reviews, call, i, true, true, !SaveRaises(s1, second)));
    if Some(s.reviews.records[call].parentTurn) == s.reviews.parent && call in s.reviews.live then Save(s2, second)
    else s2
  }

  lemma ExpiredContinues(s: Codex, s1: Codex, call: CallId, i: nat, second: Io)
    requires s1.book.Some? && Has(s.reviews.records, call, i)
    ensures Continued(s, s1, call, i, second).reviews.asked == s.reviews.asked
  {
    ExpiredWork(s.reviews, call, i, true, !SaveRaises(s1, second));
    SaveAsksNobody(s1.(reviews := StartWork(s.reviews, call, i, true, true, !SaveRaises(s1, second))), second);
  }

  // An expert is asked only after the file says that its child is running, and is asked
  // exactly when that was saved, in time, in its turn.
  lemma AskedAfterSaved(steps: seq<Step>, s: Codex, a: Step)
    requires Runs(START, steps, s) && a.DoStart? && Allowed(s, a)
    ensures Has(s.reviews.records, a.call, a.i)
    ensures AskedSaved(s, a.call, a.i, a.first, a.expired, Next(s, a))
  {
    P.StartIsGood();
    P.RunGood(START, steps, s);
    P.TaskRestored(s, a.call, a.i);
    StartedAfterSaved(s, a.call, a.i, a.first, a.expired, a.second);
  }

  lemma BegunEntered(s: Codex, call: CallId, i: nat)
    requires P.Good(s) && s.restored && !s.failed && Has(s.reviews.records, call, i)
    ensures Entered(s.(reviews := StartWork(s.reviews, call, i, false, false, false)))
  {
    assert Entered(s);
  }

  // What was asked after the first stretch of a worker whose mark was saved.
  lemma AskOutcome(r: State, call: CallId, i: nat, ok: bool)
    requires Has(r.records, call, i)
    ensures var child := r.records[call].children[i];
      StartWork(r, call, i, true, false, ok).asked ==
        if r.parent == Some(r.records[call].parentTurn)
        then r.asked + [Ask(r.records[call].parentTurn, child.expert, child.id)] else r.asked
  {
  }

  ghost predicate AskedSaved(s: Codex, call: CallId, i: nat, first: Io, expired: bool, t: Codex)
    requires Has(s.reviews.records, call, i)
  {
    var record := s.reviews.records[call];
    var child := record.children[i];
    && (t.reviews.asked == s.reviews.asked
       || (&& t.reviews.asked == s.reviews.asked + [Ask(record.parentTurn, child.expert, child.id)]
           && Filed(t.file, call, i, child.(state := Running))))
    && (t.reviews.asked != s.reviews.asked <==>
          !s.failed && first.Stored? && !expired && s.reviews.parent == Some(record.parentTurn))
  }

  lemma StartedAfterSaved(s: Codex, call: CallId, i: nat, first: Io, expired: bool, second: Io)
    requires P.Good(s) && s.restored && Has(s.reviews.records, call, i)
    ensures AskedSaved(s, call, i, first, expired, ExpertStart(s, call, i, first, expired, second))
  {
    if expired {
      ExpiredAsksNobody(s, call, i, first, second);
    } else {
      var begun := s.(reviews := StartWork(s.reviews, call, i, false, false, false));
      if !s.failed {
        BegunEntered(s, call, i);
      }
      StartedInTime(s, call, i, first, second, begun);
    }
  }

  lemma StartedInTime(s: Codex, call: CallId, i: nat, first: Io, second: Io, begun: Codex)
    requires s.book.Some? && Has(s.reviews.records, call, i)
    requires begun == s.(reviews := StartWork(s.reviews, call, i, false, false, false))
    requires !s.failed ==> Entered(begun)
    ensures AskedSaved(s, call, i, first, false, ExpertStart(s, call, i, first, false, second))
  {
    StartIs(s, call, i, first, second, begun);
    if !SaveRaises(begun, first) {
      SavedChild(begun, first, call, i);
      AskOutcome(s.reviews, call, i, true);
      AskOutcome(s.reviews, call, i, false);
    }
  }

  // An awaited answer is in the file before anybody is told, when its save lands; any other
  // answer leaves book and file alone.
  lemma AnswerIsSaved(steps: seq<Step>, s: Codex, a: Step)
    requires Runs(START, steps, s) && a.DoAnswer? && Allowed(s, a)
    ensures Next(s, a).reviews.told == s.reviews.told
    ensures V.Awaited(s.reviews, a.call, a.i) && !s.failed && a.io.Stored? ==>
      Filed(Next(s, a).file, a.call, a.i, V.Done(s.reviews.records[a.call].children[a.i], a.answer))
    ensures !V.Awaited(s.reviews, a.call, a.i) ==> Next(s, a).book == s.book && Next(s, a).file == s.file
  {
    P.StartIsGood();
    P.RunGood(START, steps, s);
    P.TaskRestored(s, a.call, a.i);
    assert Next(s, a) == ExpertFinish(s, a.call, a.i, a.answer, a.io);
    if V.Awaited(s.reviews, a.call, a.i) {
      FinishSaved(s, a.call, a.i, a.answer, a.io);
    } else {
      FinishIgnored(s, a.call, a.i, a.answer, a.io);
    }
  }

  lemma FinishIgnored(s: Codex, call: CallId, i: nat, answer: Option<Report>, io: Io)
    requires s.book.Some? && !V.Awaited(s.reviews, call, i)
    ensures var t := ExpertFinish(s, call, i, answer, io);
      t.reviews.told == s.reviews.told && t.book == s.book && t.file == s.file
  {
  }

  lemma FinishSaved(s: Codex, call: CallId, i: nat, answer: Option<Report>, io: Io)
    requires P.Good(s) && s.restored && V.Awaited(s.reviews, call, i)
    ensures var t := ExpertFinish(s, call, i, answer, io);
      && t.reviews.told == s.reviews.told
      && (!s.failed && io.Stored? ==> Filed(t.file, call, i, V.Done(s.reviews.records[call].children[i], answer)))
  {
    assert !s.failed ==> Entered(s);
    var ok := !SaveRaises(s, io);
    FinishedSaved(s, call, i, answer, io, s.(reviews := FinishWork(s.reviews, call, i, answer, ok)), ok);
  }

  lemma FinishedWork(r: State, call: CallId, i: nat, answer: Option<Report>, ok: bool)
    requires V.Awaited(r, call, i)
    ensures var q := FinishWork(r, call, i, answer, ok);
      && q.told == r.told && q.records.Keys == r.records.Keys
      && Has(q.records, call, i) && q.records[call].children[i] == V.Done(r.records[call].children[i], answer)
  {
  }

  lemma SaveTellsNobody(s: Codex, io: Io)
    requires s.book.Some?
    ensures Save(s, io).reviews.told == s.reviews.told
  {
  }

  lemma FinishedSaved(s: Codex, call: CallId, i: nat, answer: Option<Report>, io: Io, done: Codex, ok: bool)
    requires s.book.Some? && V.Awaited(s.reviews, call, i) && (!s.failed ==> Entered(s)) && ok == !SaveRaises(s, io)
    requires done == s.(reviews := FinishWork(s.reviews, call, i, answer, ok))
    ensures var t := ExpertFinish(s, call, i, answer, io);
      && t.reviews.told == s.reviews.told
      && (!s.failed && io.Stored? ==> Filed(t.file, call, i, V.Done(s.reviews.records[call].children[i], answer)))
  {
    FinishedWork(s.reviews, call, i, answer, ok);
    SaveTellsNobody(done, io);
    assert ExpertFinish(s, call, i, answer, io) == Save(done, io);
    if !s.failed && io.Stored? {
      SavedChild(done, io, call, i);
    }
  }

  // ---------------------------------------------------------------- publication

  // What `execute` publishes is what the file says of every child of the call.
  lemma PublishedIsSaved(steps: seq<Step>, s: Codex, a: Step)
    requires Runs(START, steps, s) && a.DoJudgeCall? && Allowed(s, a) && !s.failed && a.io.Stored?
    ensures PublishedFiled(s, a.call, Next(s, a))
  {
    P.StartIsGood();
    P.RunGood(START, steps, s);
    InExecuteEntered(s, a.call);
    JudgedSaved(s, a.call, a.sourceSame, a.io, a.first);
  }

  ghost predicate PublishedFiled(s: Codex, call: CallId, t: Codex) {
    && t.file.Some? && call in t.file.value.calls && call in t.reviews.records
    && t.file.value.calls[call].record == t.reviews.records[call]
    && t.reviews.told == s.reviews.told + V.StatesOf(t.file.value.calls[call].record.children)
    && t.callers == s.callers[call := Leaving(true)]
  }

  lemma JudgedSaved(s: Codex, call: CallId, sourceSame: bool, io: Io, first: Io)
    requires s.book.Some? && MayJudge(s.reviews, call) && !s.failed && io.Stored? && Entered(s)
    ensures PublishedFiled(s, call, JudgeCall(s, call, sourceSame, io, first))
  {
    V.Publishes(s.reviews, call, sourceSame);
    PublishedSaved(s, s.(reviews := Judge(s.reviews, call, sourceSame)), call, io, first);
  }

  lemma InExecuteEntered(s: Codex, call: CallId)
    requires P.Good(s) && call in s.callers && s.book.Some? && !s.failed
    ensures Entered(s)
  {
    P.CallerRestored(s, call);
  }

  lemma PublishedSaved(s: Codex, judged: Codex, call: CallId, io: Io, first: Io)
    requires s.book.Some? && judged == s.(reviews := judged.reviews) && call in judged.reviews.records
    requires judged.reviews.records.Keys == s.reviews.records.Keys && !s.failed && Entered(s) && io.Stored?
    ensures var t := Published(judged, call, io, first);
      && t.file.Some? && call in t.file.value.calls
      && t.reviews == Announce(judged.reviews, call)
      && t.file.value.calls[call].record == judged.reviews.records[call]
      && t.callers == s.callers[call := Leaving(true)]
  {
    assert Entered(judged);
    SaveTakes(judged, io);
  }

  // ---------------------------------------------------------------- the end of a call

  // How the call ended: its entry is settled, and interrupted exactly if it was before, the
  // adapter is revoked or broken, or the thread, the turn or the policy moved on.
  ghost predicate Ended(s: Codex, call: CallId, changed: bool, t: Codex) {
    && s.book.Some? && t.book.Some?
    && call in s.book.value.calls && call in t.book.value.calls
    && var before, after := s.book.value.calls[call], t.book.value.calls[call];
      && after.experts == before.experts
      && after.settled
      && (after.interrupted <==> before.interrupted || s.revoked || s.failed || changed)
  }

  // The other entries are as they were, but for their records.
  ghost predicate OthersStay(s: Codex, call: CallId, t: Codex) {
    && s.book.Some? && t.book.Some?
    && t.book.value.calls.Keys == s.book.value.calls.Keys
    && forall c | c in s.book.value.calls && c != call :: EndKept(s.book.value.calls[c], t.book.value.calls[c])
  }

  lemma ClosedIs(s: Codex, call: CallId, changed: bool, interrupted: bool)
    requires s.book.Some? && call in s.book.value.calls
    requires interrupted == (s.book.value.calls[call].interrupted || s.revoked || s.failed || changed)
    ensures var t := Closed(s, call, interrupted);
      && Ended(s, call, changed, t) && OthersStay(s, call, t)
      && t == s.(book := t.book) && t.book.value.calls[call].record == s.book.value.calls[call].record
  {
  }

  // The entries of `b` ended as those of `a`, but for their records.
  ghost predicate EndsKept(a: Calls, b: Calls) {
    b.Keys == a.Keys && forall c | c in a :: EndKept(a[c], b[c])
  }

  predicate EndKept(a: Entry, b: Entry) {
    b.experts == a.experts && b.settled == a.settled && b.interrupted == a.interrupted
  }

  lemma SaveCalls(s: Codex, io: Io)
    requires s.book.Some?
    ensures Save(s, io).book.Some? && Save(s, io).book.value.calls == WithRecords(s.book.value.calls, s.reviews.records)
  {
  }

  lemma RecordsKeepEnds(calls: Calls, r: Records)
    ensures EndsKept(calls, WithRecords(calls, r))
  {
  }

  // A save keeps how every call ended.
  lemma SaveKeepsEnds(s: Codex, io: Io)
    requires s.book.Some?
    ensures Save(s, io).book.Some? && EndsKept(s.book.value.calls, Save(s, io).book.value.calls)
  {
    SaveCalls(s, io);
    RecordsKeepEnds(s.book.value.calls, s.reviews.records);
  }

  // Revocation settles what is open; a settled entry ends as it did.
  lemma RevokeKeepsEnds(s: Codex, first: Io, second: Io, call: CallId)
    requires s.book.Some? && call in s.book.value.calls && s.book.value.calls[call].settled
    ensures var t := RevokeAll(s, first, second);
      && t.book.Some? && call in t.book.value.calls
      && EndKept(s.book.value.calls[call], t.book.value.calls[call])
  {
    var r := s.(revoked := true, reviews := Settle(s.reviews));
    var s1 := Save(r, first);
    SaveKeepsEnds(r, first);
    SecondKeepsEnds(s, call, s1, second);
    assert RevokeAll(s, first, second) ==
      if SaveRaises(r, first) then s1.(failed := true) else Save(EntriesDone(s1), second);
  }

  lemma SecondKeepsEnds(s: Codex, call: CallId, s1: Codex, second: Io)
    requires s.book.Some? && call in s.book.value.calls && s.book.value.calls[call].settled
    requires s1.book.Some? && EndsKept(s.book.value.calls, s1.book.value.calls)
    ensures var t := Save(EntriesDone(s1), second);
      && t.book.Some? && call in t.book.value.calls
      && EndKept(s.book.value.calls[call], t.book.value.calls[call])
  {
    EntriesDoneIs(s1, call);
    SaveKeepsEnds(EntriesDone(s1), second);
    assert EndKept(s.book.value.calls[call], s1.book.value.calls[call]);
    assert EndKept(EntriesDone(s1).book.value.calls[call], Save(EntriesDone(s1), second).book.value.calls[call]);
  }

  // A normal return settles the entry of its call with the exact flag, whatever then fails,
  // and drops the call; when its save lands the file says so, with the final record.
  lemma ReturnSettles(steps: seq<Step>, s: Codex, a: Step)
    requires Runs(START, steps, s) && a.DoReturn? && Allowed(s, a) && a.normal && a.call in s.book.value.calls
    ensures Returns(s, a.call, a.changed, a.io, Next(s, a))
  {
    P.StartIsGood();
    P.RunGood(START, steps, s);
    LeavingEntered(s, a.call);
    var d := Drained(s, a.call);
    var interrupted := s.book.value.calls[a.call].interrupted || s.revoked || s.failed || a.changed;
    ReturnsClosed(s, a.call, a.changed, a.io, a.first, a.second, d, Closed(d, a.call, interrupted));
  }

  ghost predicate Returns(s: Codex, call: CallId, changed: bool, io: Io, t: Codex) {
    && Ended(s, call, changed, t)
    && call !in t.reviews.records
    && call !in t.callers
    && (!s.failed && io.Stored? ==>
          && t.file == t.book
          && OthersStay(s, call, t)
          && call in s.reviews.records
          && t.book.value.calls[call].record == s.reviews.records[call])
  }

  lemma LeavingEntered(s: Codex, call: CallId)
    requires P.Good(s) && call in s.callers && s.callers[call].Leaving? && s.book.Some?
    ensures call !in s.reviews.live && (!s.failed ==> Entered(s) && call in s.reviews.records)
  {
    P.CallerRestored(s, call);
  }

  lemma ReturnsClosed(s: Codex, call: CallId, changed: bool, io: Io, first: Io, second: Io, d: Codex, c: Codex)
    requires s.book.Some? && call in s.book.value.calls && call !in s.reviews.live
    requires !s.failed ==> Entered(s) && call in s.reviews.records
    requires d == Drained(s, call)
    requires c == Closed(d, call, s.book.value.calls[call].interrupted || s.revoked || s.failed || changed)
    ensures Returns(s, call, changed, io, Return(s, call, true, changed, io, first, second))
  {
    var interrupted := s.book.value.calls[call].interrupted || s.revoked || s.failed || changed;
    ClosedIs(d, call, changed, interrupted);
    var t := Return(s, call, true, changed, io, first, second);
    assert t == SavedAndDropped(c, call, io, first, second);
    SaveKeepsEnds(c, io);
    SaveKeeps(c, io);
    if SaveRaises(c, io) {
      FailedReturn(s, call, changed, io, first, second, c, Save(c, io), t);
    } else {
      SaveTakes(c, io);
      SavedReturn(s, call, changed, io, c, Save(c, io), t);
    }
  }

  lemma SavedReturn(s: Codex, call: CallId, changed: bool, io: Io, c: Codex, saved: Codex, t: Codex)
    requires s.book.Some? && call in s.book.value.calls && Ended(s, call, changed, c) && OthersStay(s, call, c)
    requires c == s.(reviews := c.reviews, callers := c.callers, book := c.book) && call !in c.callers
    requires c.reviews.records == s.reviews.records && call !in c.reviews.live
    requires !s.failed ==> call in s.reviews.records
    requires Taken(c.book.value, c.reviews, saved) && saved == c.(book := saved.book, file := saved.file)
    requires t == Dropped(saved, call)
    ensures Returns(s, call, changed, io, t)
  {
  }

  lemma FailedReturn(s: Codex, call: CallId, changed: bool, io: Io, first: Io, second: Io, c: Codex, saved: Codex,
                     t: Codex)
    requires s.book.Some? && call in s.book.value.calls && Ended(s, call, changed, c) && call !in c.callers
    requires saved.book.Some? && EndsKept(c.book.value.calls, saved.book.value.calls) && saved.callers == c.callers
    requires s.failed || !io.Stored?
    requires t == Ruined(saved, call, first, second)
    ensures Returns(s, call, changed, io, t)
  {
    RuinedCloses(saved, call, first, second);
    RevokeKeepsEnds(saved, first, second, call);
    assert t.book == RevokeAll(saved, first, second).book;
  }

  // ---------------------------------------------------------------- revocation

  // A child as an interruption leaves it.
  predicate Settled(child: Child, after: Child) {
    if child.state.Completed? || child.state.Failed? || child.state.Cancelled? then after == child
    else after == Child(child.id, child.expert, Cancelled, None, ProcessInterrupted)
  }

  predicate SettledRecord(record: Record, after: Record) {
    && after.parentTurn == record.parentTurn
    && after.source == record.source
    && |after.children| == |record.children|
    && forall i | 0 <= i < |record.children| :: Settled(record.children[i], after.children[i])
  }

  // What a revocation writes of one call: decided verdicts stay, an open entry was interrupted.
  predicate RevokedEntry(entry: Entry, record: Record, after: Entry) {
    && after.experts == entry.experts
    && after.settled
    && after.interrupted == (entry.interrupted || !entry.settled)
    && SettledRecord(record, after.record)
  }

  lemma InterruptSettles(record: Record)
    ensures SettledRecord(record, InterruptedRecord(record))
  {
  }

  lemma EntriesDoneIs(s: Codex, c: CallId)
    requires s.book.Some? && c in s.book.value.calls
    ensures var entry, t := s.book.value.calls[c], EntriesDone(s);
      && t == s.(book := t.book) && t.book.Some? && t.book.value.calls.Keys == s.book.value.calls.Keys
      && var after := t.book.value.calls[c];
        && after.experts == entry.experts && after.record == entry.record
        && after.settled && after.interrupted == (entry.interrupted || !entry.settled)
  {
  }

  lemma RevokeIs(s: Codex, first: Io, second: Io, r: Codex)
    requires s.book.Some? && !s.failed && Entered(s) && r == s.(revoked := true, reviews := Settle(s.reviews))
    ensures Entered(r) && SaveRaises(r, first) == first.Raises()
    ensures first.Raises() ==> RevokeAll(s, first, second) == Save(r, first).(failed := true)
    ensures !first.Raises() ==> RevokeAll(s, first, second) == Save(EntriesDone(Save(r, first)), second)
  {
  }

  // The state between the two writes of a revocation.
  lemma RevokeBetween(s: Codex, first: Io, r: Codex, e: Codex, c: CallId)
    requires s.book.Some? && Entered(s) && r == s.(revoked := true, reviews := Settle(s.reviews))
    requires !SaveRaises(r, first) && e == EntriesDone(Save(r, first)) && c in s.book.value.calls
    ensures e.book.Some? && e.book.value.calls.Keys == s.book.value.calls.Keys
    ensures var entry, after := s.book.value.calls[c], e.book.value.calls[c];
      && after.experts == entry.experts
      && after.settled
      && after.interrupted == (entry.interrupted || !entry.settled)
      && (c !in s.reviews.records ==> after.record == entry.record)
    ensures e.reviews == r.reviews && !e.failed && e.revoked && Entered(e)
  {
    SaveTakes(r, first);
    EntriesDoneIs(Save(r, first), c);
  }

  lemma RevokeEntry(s: Codex, first: Io, second: Io, r: Codex, e: Codex, c: CallId)
    requires s.book.Some? && Entered(s) && r == s.(revoked := true, reviews := Settle(s.reviews))
    requires !SaveRaises(r, first) && e == EntriesDone(Save(r, first)) && c in s.book.value.calls
    requires GoneSettledAt(s, c) && e.book.Some? && !SaveRaises(e, second)
    ensures var entry, t := s.book.value.calls[c], Save(e, second);
      && t.book.Some? && t.file == t.book && t.book.value.calls.Keys == s.book.value.calls.Keys
      && !t.failed && t.revoked
      && RevokedEntry(entry, if c in s.reviews.records then s.reviews.records[c] else entry.record,
                      t.book.value.calls[c])
  {
    RevokeBetween(s, first, r, e, c);
    SaveTakes(e, second);
    if c in s.reviews.records {
      InterruptSettles(s.reviews.records[c]);
    }
  }

  // A call whose record was dropped has decided children.
  predicate GoneSettledAt(s: Codex, c: CallId)
    requires s.book.Some? && c in s.book.value.calls
  {
    c !in s.reviews.records ==> AllTerminal(s.book.value.calls[c].record)
  }

  lemma RevokeWrites(s: Codex, first: Io, second: Io)
    requires s.book.Some? && !s.failed && Entered(s) && forall c | c in s.book.value.calls :: GoneSettledAt(s, c)
    ensures RevokesAll(s, first, second, RevokeAll(s, first, second))
  {
    var r := s.(revoked := true, reviews := Settle(s.reviews));
    RevokeIs(s, first, second, r);
    RevokedKeeps(s, first, second);
    P.RevokedDead(s, first, second);
    SameAsked(s, first, second);
    if first.Raises() {
      assert RevokeAll(s, first, second).failed;
    } else if first.Stored? && second.Stored? {
      var e := EntriesDone(Save(r, first));
      SecondLands(s, first, r, e);
      forall c | c in s.book.value.calls
        ensures var entry, t := s.book.value.calls[c], Save(e, second);
          && t.book.value.calls.Keys == s.book.value.calls.Keys
          && RevokedEntry(entry, if c in s.reviews.records then s.reviews.records[c] else entry.record,
                      t.book.value.calls[c])
      {
        RevokeEntry(s, first, second, r, e, c);
      }
      SaveTakes(e, second);
    }
  }

  lemma SameAsked(s: Codex, first: Io, second: Io)
    requires s.book.Some?
    ensures RevokeAll(s, first, second).reviews.asked == s.reviews.asked
  {
  }

  lemma SecondLands(s: Codex, first: Io, r: Codex, e: Codex)
    requires s.book.Some? && Entered(s) && r == s.(revoked := true, reviews := Settle(s.reviews))
    requires !SaveRaises(r, first) && e == EntriesDone(Save(r, first))
    ensures e.book.Some? && !SaveRaises(e, Stored) && e.book.value.calls.Keys == s.book.value.calls.Keys
  {
    SaveTakes(r, first);
  }

  ghost predicate RevokesAll(s: Codex, first: Io, second: Io, t: Codex)
    requires s.book.Some?
  {
    && t.revoked && t.reviews.live == {} && t.reviews.asked == s.reviews.asked
    && (first.Raises() ==> t.failed)
    && (first.Stored? && second.Stored? ==>
          && !t.failed && t.book.Some? && t.file == t.book
          && t.book.value.calls.Keys == s.book.value.calls.Keys
          && forall c | c in s.book.value.calls ::
            var entry := s.book.value.calls[c];
            RevokedEntry(entry, if c in s.reviews.records then s.reviews.records[c] else entry.record,
                         t.book.value.calls[c]))
  }

  // A revocation whose writes land leaves every call in the file settled, with the records of
  // the protocol settled too; one whose first write is lost closes the adapter.
  lemma RevokeSettles(steps: seq<Step>, s: Codex, a: Step)
    requires Runs(START, steps, s) && a.DoRevokeAll? && s.restored && !s.failed
    ensures s.book.Some? && RevokesAll(s, a.first, a.second, Next(s, a))
  {
    P.StartIsGood();
    P.RunGood(START, steps, s);
    assert Entered(s);
    assert forall c | c in s.book.value.calls :: GoneSettledAt(s, c);
    RevokeWrites(s, a.first, a.second);
  }

  // ---------------------------------------------------------------- a new process, a new turn

  // A new adapter over a file a run left behind keeps how every settled call ended, with its
  // verdicts; an open call was interrupted. Without a file it starts with nothing.
  lemma RestoreKeeps(steps: seq<Step>, s: Codex, root: string)
    requires Runs(START, steps, s) && !s.restored && !s.failed
    requires s.file.Some? ==> s.file.value.root == root
    ensures var t := Restore(s, root, true, Stored);
      && t.restored && !t.failed && t.book.Some?
      && t.book.value.root == root
      && (s.file.None? ==>
            && t.file.None?
            && t.book.value.calls == map[] && t.book.value.used == {} && t.book.value.seen == {}
            && t.book.value.turn.None?)
      && (s.file.Some? ==>
            && t.file == t.book
            && t.book.value.turn == s.file.value.turn
            && t.book.value.used == s.file.value.used
            && t.book.value.seen == s.file.value.seen
            && t.book.value.calls.Keys == s.file.value.calls.Keys
            && forall c | c in s.file.value.calls ::
              var entry := s.file.value.calls[c];
              if entry.settled then t.book.value.calls[c] == entry
              else RevokedEntry(entry, entry.record, t.book.value.calls[c]))
  {
    P.StartIsGood();
    P.RunGood(START, steps, s);
    if s.file.Some? {
      P.RestoreStored(s, root, s.file.value);
      forall c | c in s.file.value.calls
        ensures var entry := s.file.value.calls[c];
          SettledRecord(entry.record, InterruptedRecord(entry.record))
      {
        InterruptSettles(s.file.value.calls[c].record);
      }
    } else {
      P.RestoreFresh(s, root);
    }
  }

  // What may begin a turn: the root is the restored one, the protocol holds nothing, and the
  // host is in another turn than the one bound.
  ghost predicate Beginnable(s: Codex, root: string) {
    && s.restored && !s.failed && s.book.Some?
    && s.book.value.root == root
    && s.reviews.records == map[]
    && (forall k | k in s.reviews.tasks :: s.reviews.tasks[k].Ended?)
    && s.reviews.parent.Some?
    && s.reviews.parent != s.reviews.parentTurn
  }

  // A turn begins with an empty book under the same root, written before it counts; a lost
  // write closes the adapter, and a refused begin changes nothing.
  lemma BeginWrites(s: Codex, a: Step)
    requires a.DoBeginTurn? && Allowed(s, a)
    ensures var t := Next(s, a);
      && (!Beginnable(s, a.beginRoot) ==> t == s)
      && (Beginnable(s, a.beginRoot) ==>
            && t.book == Some(Book(a.beginRoot, s.reviews.parent, {}, {}, map[]))
            && t.file == (if a.io.Lands() then t.book else s.file)
            && t.reviews.parentTurn == s.reviews.parent && t.reviews.used == {} && t.reviews.seen == {}
            && t.failed == t.revoked == a.io.Raises())
  {
  }
}
