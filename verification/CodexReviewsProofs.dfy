// Every book the Codex adapter writes is accepted by its own strict reader, in every
// run with failing writes, revocation, crashes and restores; and the budget of a parent
// turn survives all of them.
module CodexReviewsProofs {
  import opened Prelude
  import opened ExpertReviews
  import opened CodexReviews
  import C = Checkpoint
  import P = ExpertReviewsProofs

  // ---------------------------------------------------------------- the invariant

  // The experts already granted in the bound turn. A write that was lost may leave
  // the restored `used` behind them.
  function Budget(r: State): set<Expert> {
    if r.parentTurn.Some? then GrantedIn(r.granted, r.parentTurn.value) else {}
  }

  function Norm(r: State): State {
    r.(used := Budget(r))
  }

  // Before the restore the host's turn says nothing about the protocol.
  function Bound(s: Codex): State {
    if s.restored then s.reviews else s.reviews.(parent := None)
  }

  predicate Quiet(r: State) {
    r.records == map[] && r.live == {} && r.tasks == map[] && r.progress == map[] && r.parentTurn.None? && r.used == {}
  }

  ghost predicate FileOk(file: Option<Book>, turns: set<Turn>, g: Grant) {
    file.Some? ==>
      && BookAccepted(file.value)
      && (file.value.turn.Some? ==> file.value.turn.value in turns)
      && CallsGranted(file.value.calls, g)
  }

  // Only the turn in the file has granted experts, among the turns that can return.
  predicate LastOk(s: Codex) {
    && (s.reviews.parent.Some? ==> s.reviews.parent == s.last)
    && (s.last.Some? ==> s.last.value in s.reviews.turns)
    && (s.last.Some? && GrantedIn(s.reviews.granted, s.last.value) != {} ==>
       s.file.Some? && s.file.value.turn == s.last)
  }

  predicate CallersStand(callers: map<CallId, Stage>, progress: map<CallId, Progress>) {
    forall c | c in callers :: c in progress && (callers[c].Leaving? ==> progress[c].Draining?)
  }

  ghost predicate Always(s: Codex) {
    && FileOk(s.file, s.reviews.turns, s.reviews.granted)
    && Inv(Norm(Bound(s)))
    && LastOk(s)
    && CallersStand(s.callers, s.reviews.progress)
    && (s.restored ==> s.book.Some?)
    && (!s.restored ==> Quiet(s.reviews) && s.revoked && s.callers == map[])
    && (!s.restored && !s.failed ==> s.book.None?)
  }

  ghost predicate BookOk(b: Book, r: State) {
    && b.turn == r.parentTurn
    && b.calls.Keys == r.seen
    && (forall c | c in b.calls :: EntryShaped(b.calls[c], b.turn))
    && CallsApart(b.calls, b.calls.Keys)
    && ExpertsIn(b.calls, b.calls.Keys) == r.used && |r.used| <= 2
  }

  ghost predicate CallsGranted(calls: Calls, g: Grant) {
    forall c, i | In(calls, c, i) ::
      && (calls[c].record.parentTurn, At(calls, c, i).expert) in g
      && g[(calls[c].record.parentTurn, At(calls, c, i).expert)] == At(calls, c, i).id
  }

  ghost predicate RecordsEntered(calls: Calls, r: Records, live: set<CallId>) {
    forall c | c in r ::
      && c in calls && C.Names(r[c]) == calls[c].experts && r[c].parentTurn == calls[c].record.parentTurn
      && (calls[c].settled ==> c !in live)
  }

  // A call that left the protocol has been settled.
  predicate GoneSettled(calls: Calls, r: Records) {
    forall c | c in calls && c !in r :: calls[c].settled && AllTerminal(calls[c].record)
  }

  ghost predicate DeadTerminal(r: Records, live: set<CallId>) {
    forall c | c in r && c !in live :: AllTerminal(r[c])
  }

  predicate CallersOk(callers: map<CallId, Stage>, r: State) {
    && callers.Keys <= r.records.Keys
    && forall c | c in r.progress && (r.progress[c].Gathering? || r.progress[c].Judged?) ::
      c in callers && callers[c] == Executing
  }

  predicate SameTurn(file: Option<Book>, b: Book) {
    if file.Some? then file.value.turn == b.turn else b.turn.None?
  }

  ghost predicate Whole(s: Codex)
    requires s.book.Some?
  {
    var b := s.book.value;
    && BookOk(b, s.reviews)
    && CallsGranted(b.calls, s.reviews.granted)
    && RecordsEntered(b.calls, s.reviews.records, s.reviews.live)
    && GoneSettled(b.calls, s.reviews.records)
    && DeadTerminal(s.reviews.records, s.reviews.live)
    && CallersOk(s.callers, s.reviews)
    && SameTurn(s.file, b)
    && (!s.revoked ==> s.reviews.used == Budget(s.reviews))
  }

  ghost predicate Good(s: Codex) {
    Always(s) && (s.restored && !s.failed ==> Whole(s))
  }

  // ---------------------------------------------------------------- steps of the protocol under a lagging `used`

  predicate Plain(a: Action) {
    !a.DoBegin? && !a.DoPrepare? && !a.DoRestart?
  }

  lemma PutIgnoresUsed(r: State, n: set<Expert>, call: CallId, i: nat, child: Child)
    requires Has(r.records, call, i)
    ensures PutChild(r.(used := n), call, i, child) == PutChild(r, call, i, child).(used := n)
  {
  }

  lemma StartIgnoresUsed(r: State, n: set<Expert>, call: CallId, i: nat, saved: bool, expired: bool, failureSaved: bool)
    ensures StartWork(r.(used := n), call, i, saved, expired, failureSaved) ==
      StartWork(r, call, i, saved, expired, failureSaved).(used := n)
  {
    if Has(r.records, call, i) {
      var running := Kid(r.records, call, i).(state := Running);
      var failed := running.(state := Failed, result := None, error := AnalysisFailed);
      var s1 := PutChild(r, call, i, running);
      PutIgnoresUsed(r, n, call, i, running);
      var s2 := s1.(told := r.told + {Event(running.id, Running)});
      PutIgnoresUsed(s2, n, call, i, failed);
    }
  }

  lemma FinishIgnoresUsed(r: State, n: set<Expert>, call: CallId, i: nat, answer: Option<Report>, saved: bool)
    ensures FinishWork(r.(used := n), call, i, answer, saved) == FinishWork(r, call, i, answer, saved).(used := n)
  {
    if WorkCounts(r, call, i) {
      PutIgnoresUsed(r, n, call, i, Answered(Kid(r.records, call, i), answer));
    }
  }

  lemma WorkIgnoresUsed(r: State, a: Action)
    requires (a.DoStartWork? || a.DoFinishWork? || a.DoDropWork?) && ExpertReviews.Enabled(r, a)
    ensures ExpertReviews.Enabled(Norm(r), a) && Apply(Norm(r), a) == Norm(Apply(r, a))
  {
    if a.DoStartWork? {
      StartIgnoresUsed(r, Budget(r), a.call, a.i, a.saved, a.expired, a.failureSaved);
    } else if a.DoFinishWork? {
      FinishIgnoresUsed(r, Budget(r), a.call, a.i, a.answer, a.saved);
    }
  }

  lemma ExecuteIgnoresUsed(r: State, a: Action)
    requires (a.DoLaunch? || a.DoJudge? || a.DoAnnounce? || a.DoLeave? || a.DoDrain? || a.DoFinish?)
    requires ExpertReviews.Enabled(r, a)
    ensures ExpertReviews.Enabled(Norm(r), a) && Apply(Norm(r), a) == Norm(Apply(r, a))
  {
  }

  lemma HostIgnoresUsed(r: State, a: Action)
    requires (a.DoNewTurn? || a.DoEndTurn? || a.DoRevoke? || a.DoSettle?) && ExpertReviews.Enabled(r, a)
    ensures ExpertReviews.Enabled(Norm(r), a) && Apply(Norm(r), a) == Norm(Apply(r, a))
  {
  }

  lemma NormCommutes(r: State, a: Action)
    requires Plain(a) && ExpertReviews.Enabled(r, a)
    ensures ExpertReviews.Enabled(Norm(r), a) && Apply(Norm(r), a) == Norm(Apply(r, a))
  {
    if a.DoStartWork? || a.DoFinishWork? || a.DoDropWork? {
      WorkIgnoresUsed(r, a);
    } else if a.DoNewTurn? || a.DoEndTurn? || a.DoRevoke? || a.DoSettle? {
      HostIgnoresUsed(r, a);
    } else {
      ExecuteIgnoresUsed(r, a);
    }
  }

  lemma PlainKeeps(r: State, a: Action)
    requires Inv(Norm(r)) && Plain(a) && ExpertReviews.Enabled(r, a)
    ensures Inv(Norm(Apply(r, a)))
  {
    NormCommutes(r, a);
    P.StepKeeps(Norm(r), a);
  }

  // ---------------------------------------------------------------- what a book promises

  lemma {:induction false} FirstExperts(calls: Calls, ids: set<CallId>)
    requires ids <= calls.Keys && CallsApart(calls, ids)
    requires forall c | c in ids :: |calls[c].experts| >= 1
    ensures |ids| <= |ExpertsIn(calls, ids)|
    decreases ids
  {
    if ids != {} {
      var c :| c in ids;
      FirstExperts(calls, ids - {c});
      var n := calls[c].experts[0];
      assert c in ids && c in calls && n in calls[c].experts;
      assert n in ExpertsIn(calls, ids);
      assert n !in ExpertsIn(calls, ids - {c});
      SubsetSize(ExpertsIn(calls, ids - {c}) + {n}, ExpertsIn(calls, ids));
    }
  }

  lemma GrantedApart(calls: Calls, turn: Option<Turn>, g: Grant)
    requires forall c | c in calls :: EntryShaped(calls[c], turn)
    requires CallsApart(calls, calls.Keys) && CallsGranted(calls, g) && GrantsInjective(g)
    ensures ChildrenApart(calls, calls.Keys)
  {
    forall c, i, d, j | In(calls, c, i) && In(calls, d, j) && At(calls, c, i).id == At(calls, d, j).id
      ensures c == d && i == j
    {
      var k, l := (calls[c].record.parentTurn, At(calls, c, i).expert),
        (calls[d].record.parentTurn, At(calls, d, j).expert);
      assert k in g && l in g && g[k] == g[l];
      assert C.Names(calls[c].record)[i] == calls[c].experts[i];
      assert C.Names(calls[d].record)[j] == calls[d].experts[j];
      assert calls[c].experts[i] in calls[c].experts && calls[d].experts[j] in calls[d].experts;
    }
  }

  lemma BookIsAccepted(b: Book, r: State)
    requires BookOk(b, r) && CallsGranted(b.calls, r.granted) && GrantsInjective(r.granted)
    requires b.used == r.used && b.seen == r.seen
    requires forall c | c in b.calls :: b.calls[c].settled ==> AllTerminal(b.calls[c].record)
    ensures BookAccepted(b)
  {
    FirstExperts(b.calls, b.calls.Keys);
    GrantedApart(b.calls, b.turn, r.granted);
    if b.calls != map[] {
      var c :| c in b.calls;
      assert EntryShaped(b.calls[c], b.turn);
    }
  }

  // ---------------------------------------------------------------- copying the records

  lemma CopiedExperts(calls: Calls, q: Calls)
    requires q.Keys == calls.Keys && forall c | c in calls :: q[c].experts == calls[c].experts
    ensures ExpertsIn(q, q.Keys) == ExpertsIn(calls, calls.Keys)
    ensures CallsApart(calls, calls.Keys) ==> CallsApart(q, q.Keys)
  {
  }

  lemma CopiedEntry(entry: Entry, record: Record, turn: Option<Turn>)
    requires EntryShaped(entry, turn) && C.Names(record) == entry.experts
    requires record.parentTurn == entry.record.parentTurn
    requires forall i | 0 <= i < |record.children| :: ChildHonest(record.children[i])
    ensures EntryShaped(entry.(record := record), turn)
  {
  }

  lemma RecordedOk(b: Book, r: State)
    requires BookOk(b, r) && RecordsEntered(b.calls, r.records, r.live) && ResultsHonest(r.records)
    ensures BookOk(Recorded(b, r), r)
  {
    var q := WithRecords(b.calls, r.records);
    CopiedExperts(b.calls, q);
    forall c | c in q
      ensures EntryShaped(q[c], b.turn)
    {
      if c in r.records {
        assert forall i | 0 <= i < |r.records[c].children| ::
          Has(r.records, c, i) && Kid(r.records, c, i) == r.records[c].children[i];
        CopiedEntry(b.calls[c], r.records[c], b.turn);
      }
    }
  }

  lemma RecordedGranted(b: Book, r: State)
    requires CallsGranted(b.calls, r.granted) && ChildrenGranted(r.records, r.granted)
    ensures CallsGranted(Recorded(b, r).calls, r.granted)
  {
    var q := WithRecords(b.calls, r.records);
    forall c, i | In(q, c, i)
      ensures (q[c].record.parentTurn, At(q, c, i).expert) in r.granted
        && r.granted[(q[c].record.parentTurn, At(q, c, i).expert)] == At(q, c, i).id
    {
      if c in r.records {
        assert Has(r.records, c, i) && Kid(r.records, c, i) == At(q, c, i);
      } else {
        assert In(b.calls, c, i);
      }
    }
  }

  lemma CopyWhole(s: Codex)
    requires s.restored && s.book.Some? && Whole(s) && Inv(Norm(s.reviews))
    ensures Entered(s)
    ensures Whole(s.(book := Some(Recorded(s.book.value, s.reviews))))
    ensures BookAccepted(Recorded(s.book.value, s.reviews))
  {
    RecordedOk(s.book.value, s.reviews);
    RecordedGranted(s.book.value, s.reviews);
    BookIsAccepted(Recorded(s.book.value, s.reviews), s.reviews);
  }

  // ---------------------------------------------------------------- writing

  lemma RevokedAlways(s: Codex, file: Option<Book>)
    requires Always(s) && s.restored && FileOk(file, s.reviews.turns, s.reviews.granted)
    requires s.file.Some? ==> file.Some? && file.value.turn == s.file.value.turn
    ensures Always(s.(file := file, failed := true, revoked := true, reviews := Revoke(s.reviews)))
  {
    PlainKeeps(s.reviews, DoRevoke);
  }

  lemma CopiedWriteGood(s: Codex, io: Io)
    requires Always(s) && s.restored && !s.failed && Whole(s) && BookAccepted(s.book.value)
    ensures Good(Write(s, io))
    ensures !io.Raises() ==> Write(s, io) == s.(file := s.book)
  {
    var file := if io.Lands() then s.book else s.file;
    TurnKnown(s);
    if io.Raises() {
      RevokedAlways(s, file);
    } else {
      WrittenGood(s);
    }
  }

  lemma WrittenGood(s: Codex)
    requires Always(s) && s.restored && !s.failed && Whole(s) && BookAccepted(s.book.value)
    requires FileOk(s.book, s.reviews.turns, s.reviews.granted)
    ensures Good(s.(file := s.book))
  {
  }

  lemma TurnKnown(s: Codex)
    requires s.restored && s.book.Some? && Inv(Norm(s.reviews)) && s.book.value.turn == s.reviews.parentTurn
    ensures s.book.value.turn.Some? ==> s.book.value.turn.value in s.reviews.turns
  {
  }

  lemma SaveGood(s: Codex, io: Io)
    requires Good(s) && s.restored
    ensures Good(Save(s, io))
    ensures var t := Save(s, io);
      && t.restored && t.callers == s.callers && (s.revoked ==> t.revoked)
      && (!s.failed ==> Entered(s))
      && (SaveRaises(s, io) ==> t.failed)
      && (!SaveRaises(s, io) ==>
            var b := Some(Recorded(s.book.value, s.reviews)); t == s.(book := b, file := b))
  {
    var copied := s.(book := Some(Recorded(s.book.value, s.reviews)));
    if s.failed {
      assert Always(copied);
    } else {
      CopyWhole(s);
      assert Always(copied);
      CopiedWriteGood(copied, io);
    }
  }

  // ---------------------------------------------------------------- steps inside the protocol

  // What a step of the protocol must keep for the book to stay right.
  ghost predicate Frame(r: State, q: State) {
    && q.parentTurn == r.parentTurn && q.used == r.used && q.seen == r.seen && q.granted == r.granted
    && q.turns == r.turns
    && q.parent == r.parent
    && q.records.Keys <= r.records.Keys
    && (forall c | c in q.records ::
       C.Names(q.records[c]) == C.Names(r.records[c]) && q.records[c].parentTurn == r.records[c].parentTurn)
    && q.live <= r.live
    && DeadTerminal(q.records, q.live)
  }

  lemma FrameWhole(s: Codex, q: State)
    requires s.book.Some? && Whole(s) && Frame(s.reviews, q) && q.records.Keys == s.reviews.records.Keys
    requires CallersOk(s.callers, q)
    ensures Whole(s.(reviews := q))
  {
  }

  lemma FrameGood(s: Codex, q: State)
    requires Good(s) && s.restored && Inv(Norm(q)) && CallersStand(s.callers, q.progress)
    requires q.granted == s.reviews.granted && q.turns == s.reviews.turns && q.parent == s.reviews.parent
    requires !s.failed ==> Frame(s.reviews, q) && q.records.Keys == s.reviews.records.Keys && CallersOk(s.callers, q)
    ensures Good(s.(reviews := q))
  {
    if !s.failed {
      FrameWhole(s, q);
    }
  }

  lemma SettleFrame(r: State)
    ensures Frame(r, Settle(r)) && Settle(r).records.Keys == r.records.Keys && Settle(r).progress == r.progress
  {
    var q := InterruptRecords(r.records);
    forall c | c in q
      ensures C.Names(q[c]) == C.Names(r.records[c]) && q[c].parentTurn == r.records[c].parentTurn && AllTerminal(q[c])
    {
    }
  }

  lemma SettleSaveGood(s: Codex, io: Io)
    requires Good(s) && s.restored
    ensures var settled := s.(reviews := Settle(s.reviews));
      && Good(settled) && Good(SettleSave(s, io))
      && (!s.failed ==> Entered(s))
      && SettleSave(s, io).restored && SettleSave(s, io).callers == s.callers
      && (SaveRaises(s, io) ==> SettleSave(s, io).failed)
      && (!SaveRaises(s, io) ==>
            var b := Some(Recorded(settled.book.value, settled.reviews));
              SettleSave(s, io) == settled.(book := b, file := b))
  {
    PlainKeeps(s.reviews, DoSettle);
    SettleFrame(s.reviews);
    FrameGood(s, Settle(s.reviews));
    SaveGood(s.(reviews := Settle(s.reviews)), io);
    assert Entered(s.(reviews := Settle(s.reviews))) == Entered(s);
  }

  lemma RevokedFlagGood(s: Codex)
    requires Good(s)
    ensures Good(s.(revoked := true))
  {
  }

  lemma FailedFlagGood(s: Codex)
    requires Good(s)
    ensures Good(s.(failed := true))
  {
  }

  lemma EntriesSettled(s: Codex)
    requires Good(s) && s.restored && !s.failed && s.reviews.live == {}
    ensures Good(EntriesDone(s))
  {
    var b := s.book.value;
    CopiedExperts(b.calls, SettledEntries(b.calls));
    SettledWhole(s, SettledEntries(b.calls));
  }

  lemma SettledWhole(s: Codex, q: Calls)
    requires s.book.Some? && Whole(s) && s.reviews.live == {}
    requires q.Keys == s.book.value.calls.Keys
    requires forall c | c in q ::
      q[c].experts == s.book.value.calls[c].experts && q[c].record == s.book.value.calls[c].record && q[c].settled
    requires BookOk(s.book.value.(calls := q), s.reviews)
    ensures Whole(s.(book := Some(s.book.value.(calls := q))))
  {
    var b := s.book.value;
    forall c, i | In(q, c, i)
      ensures In(b.calls, c, i) && At(q, c, i) == At(b.calls, c, i)
    {
    }
  }

  // An unbroken adapter that was revoked has settled every entry, and saved it.
  predicate AllSettled(s: Codex) {
    !s.failed && s.book.Some? ==>
      s.file == s.book && forall c | c in s.book.value.calls :: s.book.value.calls[c].settled
  }

  lemma RevokeRestored(s: Codex, first: Io, second: Io)
    requires Good(s) && s.restored && s.revoked
    ensures var t := RevokeAll(s, first, second); Good(t) && t.restored && t.revoked && t.callers == s.callers
    ensures AllSettled(RevokeAll(s, first, second))
  {
    SettleSaveGood(s, first);
    var s1 := SettleSave(s, first);
    assert s.(revoked := true) == s;
    if SaveRaises(s, first) {
      FailedFlagGood(s1);
    } else {
      SettledSaveGood(s1, second);
    }
  }

  lemma SettledSaveGood(s: Codex, io: Io)
    requires Good(s) && s.restored && !s.failed && s.revoked && s.reviews.live == {}
    ensures var t := Save(EntriesDone(s), io);
      Good(t) && t.restored && t.revoked && t.callers == s.callers && AllSettled(t)
  {
    EntriesSettled(s);
    DoneSaveGood(EntriesDone(s), io);
  }

  lemma DoneSaveGood(s: Codex, io: Io)
    requires Good(s) && s.restored && s.revoked && forall c | c in s.book.value.calls :: s.book.value.calls[c].settled
    ensures var t := Save(s, io); Good(t) && t.restored && t.revoked && t.callers == s.callers && AllSettled(t)
  {
    SaveGood(s, io);
    SavedSettled(s, io);
  }

  lemma SavedSettled(s: Codex, io: Io)
    requires s.book.Some? && (!s.failed ==> Entered(s))
    requires forall c | c in s.book.value.calls :: s.book.value.calls[c].settled
    ensures AllSettled(Save(s, io))
  {
  }

  lemma RevokeAllGood(s: Codex, first: Io, second: Io)
    requires Good(s)
    ensures var t := RevokeAll(s, first, second);
      Good(t) && t.restored == s.restored && t.revoked && t.callers == s.callers
    ensures s.restored ==> AllSettled(RevokeAll(s, first, second))
  {
    RevokedFlagGood(s);
    if s.book.Some? {
      if s.restored {
        RevokeRestored(s.(revoked := true), first, second);
      } else {
        RevokeBroken(s, first, second);
      }
    }
  }

  // Revoking an adapter whose restore failed changes nothing that matters.
  lemma RevokeBrokenIs(s: Codex, first: Io, second: Io)
    requires s.failed && s.book.Some? && s.reviews.records == map[]
    ensures RevokeAll(s, first, second) ==
      s.(revoked := true, reviews := Settle(s.reviews), book := Some(Recorded(s.book.value, Settle(s.reviews))))
  {
    assert InterruptRecords(map[]) == map[];
  }

  lemma RevokeBroken(s: Codex, first: Io, second: Io)
    requires Good(s) && !s.restored && s.book.Some?
    ensures var t := RevokeAll(s, first, second); Good(t) && !t.restored && t.revoked && t.callers == s.callers
  {
    RevokeBrokenIs(s, first, second);
    SettledQuiet(s.reviews);
    QuietBroken(s, Settle(s.reviews), Some(Recorded(s.book.value, Settle(s.reviews))));
  }

  lemma SettledQuiet(r: State)
    requires Quiet(r) && Inv(Norm(r.(parent := None)))
    ensures var q := Settle(r);
      && Quiet(q) && Inv(Norm(q.(parent := None)))
      && q.granted == r.granted && q.turns == r.turns && q.parent == r.parent
  {
    PlainKeeps(r.(parent := None), DoSettle);
    assert InterruptRecords(map[]) == map[];
    assert Settle(r.(parent := None)).(parent := None) == Settle(r).(parent := None);
  }

  lemma QuietBroken(s: Codex, q: State, book: Option<Book>)
    requires Good(s) && !s.restored && s.failed && Quiet(q) && Inv(Norm(q.(parent := None)))
    requires q.granted == s.reviews.granted && q.turns == s.reviews.turns && q.parent == s.reviews.parent
    ensures Good(s.(revoked := true, reviews := q, book := book))
  {
  }

  // ---------------------------------------------------------------- the host's turns, restart

  lemma TurnBound(s: Codex, turn: Turn, t: Codex)
    requires Always(s) && turn !in s.reviews.turns
    requires t == s.(reviews := NewTurn(s.reviews, turn), last := Some(turn))
    ensures Inv(Norm(Bound(t))) && GrantedIn(s.reviews.granted, turn) == {}
  {
    PlainKeeps(Bound(s), DoNewTurn(turn));
    assert forall k | k in s.reviews.granted :: k.0 in s.reviews.turns;
    if !s.restored {
      var r := NewTurn(Bound(s), turn);
      PlainKeeps(r, DoEndTurn);
      assert EndTurn(r) == Bound(t);
    }
  }

  lemma TurnGood(s: Codex, turn: Turn)
    requires Good(s) && turn !in s.reviews.turns
    ensures Good(s.(reviews := NewTurn(s.reviews, turn), last := Some(turn)))
  {
    var t := s.(reviews := NewTurn(s.reviews, turn), last := Some(turn));
    TurnBound(s, turn, t);
    assert Always(t);
  }

  lemma NoTurnGood(s: Codex)
    requires Good(s)
    ensures Good(s.(reviews := EndTurn(s.reviews)))
  {
    var t := s.(reviews := EndTurn(s.reviews));
    PlainKeeps(Bound(s), DoEndTurn);
    assert Always(t);
  }

  lemma RebornGood(s: Codex)
    requires Good(s)
    ensures Good(Reborn(s))
  {
    var t := Reborn(s);
    P.RestartKeeps(Norm(Bound(s)));
    assert Norm(Bound(t)) == Restart(Norm(Bound(s)));
  }

  // ---------------------------------------------------------------- restoring

  lemma SettledStoredOk(entry: Entry, turn: Option<Turn>)
    requires EntryAccepted(entry, turn)
    ensures var e := SettledStored(entry);
      && EntryAccepted(e, turn) && e.settled && e.experts == entry.experts
      && e.record.parentTurn == entry.record.parentTurn && |e.record.children| == |entry.record.children|
      && forall i | 0 <= i < |entry.record.children| ::
        e.record.children[i].id == entry.record.children[i].id
          && e.record.children[i].expert == entry.record.children[i].expert
  {
    var e := SettledStored(entry);
    assert C.Names(e.record) == C.Names(entry.record);
  }

  lemma SettledBookOk(b: Book, g: Grant)
    requires BookAccepted(b) && CallsGranted(b.calls, g)
    ensures var q := SettledBook(b);
      && BookAccepted(q) && CallsGranted(q.calls, g)
      && forall c | c in q.calls :: q.calls[c].settled && AllTerminal(q.calls[c].record)
  {
    var q := SettledBook(b);
    forall c | c in b.calls
      ensures EntryAccepted(q.calls[c], b.turn) && q.calls[c].settled && AllTerminal(q.calls[c].record)
    {
      SettledStoredOk(b.calls[c], b.turn);
    }
    CopiedBoth(b, q, g);
    CopiedExperts(b.calls, q.calls);
  }

  lemma CopiedBoth(b: Book, q: Book, g: Grant)
    requires BookAccepted(b) && CallsGranted(b.calls, g) && q == SettledBook(b)
    ensures ChildrenApart(q.calls, q.calls.Keys) && CallsGranted(q.calls, g)
  {
    forall c, i | In(q.calls, c, i)
      ensures In(b.calls, c, i) && At(q.calls, c, i).id == At(b.calls, c, i).id
      ensures At(q.calls, c, i).expert == At(b.calls, c, i).expert
        && q.calls[c].record.parentTurn == b.calls[c].record.parentTurn
    {
      SettledStoredOk(b.calls[c], b.turn);
    }
    forall c, i | In(q.calls, c, i)
      ensures (q.calls[c].record.parentTurn, At(q.calls, c, i).expert) in g
        && g[(q.calls[c].record.parentTurn, At(q.calls, c, i).expert)] == At(q.calls, c, i).id
    {
      assert In(b.calls, c, i);
    }
  }

  // The bound turn is the one in the file, so nothing else was granted in the host's turn.
  lemma BoundAgain(s: Codex, turn: Option<Turn>, used: set<Expert>, seen: set<CallId>)
    requires Always(s) && !s.restored
    requires turn.Some? ==> turn.value in s.reviews.turns
    requires if s.file.Some? then turn == s.file.value.turn else turn == None
    ensures Inv(Norm(s.reviews.(parentTurn := turn, used := used, seen := seen)))
  {
    var r, q := s.reviews, s.reviews.(parentTurn := turn, used := used, seen := seen);
    assert Norm(Bound(s)) == r.(parent := None, used := Budget(r));
    assert GrantsBounded(r.granted, r.turns, Budget(q), turn, r.parent);
  }

  lemma RestoreFresh(s: Codex, root: string)
    requires Good(s) && !s.restored && !s.failed && s.file.None?
    ensures Good(Restore(s, root, true, Stored))
  {
    BoundAgain(s, None, {}, {});
    var t := Restore(s, root, true, Stored);
    assert Always(t);
    assert ExpertsIn(map[], {}) == {};
    assert Whole(t);
  }

  lemma RestoreStored(s: Codex, root: string, b: Book)
    requires Good(s) && !s.restored && !s.failed && s.file == Some(b) && b.root == root
    ensures var t := Restore(s, root, true, Stored);
      && Good(t) && t.restored && !t.failed
      && t.book == Some(SettledBook(b)) && t.file == t.book
      && t.reviews == s.reviews.(parentTurn := b.turn, used := b.used, seen := b.seen)
  {
    SettledBookOk(b, s.reviews.granted);
    BoundAgain(s, b.turn, b.used, b.seen);
    var t := Restore(s, root, true, Stored);
    assert Always(t);
    assert Whole(t);
  }

  lemma RestoreLost(s: Codex, root: string, b: Book, io: Io)
    requires Good(s) && !s.restored && !s.failed && s.file == Some(b) && b.root == root && io.Raises()
    ensures Good(Restore(s, root, true, io))
  {
    SettledBookOk(b, s.reviews.granted);
    PlainKeeps(Bound(s), DoRevoke);
    var t := Restore(s, root, true, io);
    assert Revoke(Bound(s)) == Bound(t);
    assert Always(t);
  }

  lemma BrokenGood(s: Codex)
    requires Good(s)
    ensures Good(Broken(s))
  {
  }

  lemma RestoreGood(s: Codex, root: string, rootFine: bool, io: Io)
    requires Good(s)
    ensures Good(Restore(s, root, rootFine, io))
  {
    BrokenGood(s);
    if !s.failed && rootFine && !s.restored {
      if s.file.None? {
        RestoreFresh(s, root);
      } else if s.file.value.root == root {
        if io.Raises() { RestoreLost(s, root, s.file.value, io); } else { RestoreStored(s, root, s.file.value); }
      }
    }
  }

  // ---------------------------------------------------------------- beginning a turn

  lemma BegunReviews(s: Codex)
    requires Good(s) && s.restored && !s.failed && MayBegin(s.reviews)
    ensures Inv(Begin(s.reviews)) && Norm(Begin(s.reviews)) == Begin(s.reviews)
    ensures s.callers == map[] && s.reviews.parent == s.last && GrantedIn(s.reviews.granted, s.last.value) == {}
  {
    assert CallersOk(s.callers, s.reviews) && s.reviews.records == map[];
    assert s.callers.Keys == {};
    assert ExpertReviews.Enabled(Norm(s.reviews), DoBegin);
    P.BeginKeeps(Norm(s.reviews));
    assert Begin(Norm(s.reviews)) == Begin(s.reviews);
  }

  lemma EmptyBook(root: string, turn: Option<Turn>, g: Grant)
    ensures BookAccepted(Book(root, turn, {}, {}, map[])) && CallsGranted(map[], g) && ExpertsIn(map[], {}) == {}
  {
    assert ExpertsIn(map[], {}) == {};
  }

  lemma BeginTurnGood(s: Codex, root: string, io: Io)
    requires Good(s)
    ensures Good(BeginTurn(s, root, io))
  {
    if MayBeginTurn(s, root) {
      BegunReviews(s);
      var r := Begin(s.reviews);
      EmptyBook(root, r.parent, r.granted);
      var t := BeginTurn(s, root, io);
      if io.Raises() {
        PlainKeeps(r, DoRevoke);
        assert Always(t);
      } else {
        assert Always(t);
        assert Whole(t);
      }
    }
  }

  // ---------------------------------------------------------------- a call

  function Prepared(r: State, call: CallId, names: seq<Expert>, ids: seq<ChildId>, source: string): State
    requires MayPrepare(r, call, names) && |ids| == |names|
  {
    Prepare(r, call, names, ids, source)
  }

  lemma PreparedInv(r: State, call: CallId, names: seq<Expert>, ids: seq<ChildId>, source: string)
    requires Inv(Norm(r)) && r.used == Budget(r) && MayPrepare(r, call, names) && FreshIds(r, names, ids)
    ensures var q := Prepared(r, call, names, ids, source); Inv(q) && Norm(q) == q
  {
    assert Norm(r) == r;
    P.PrepareKeeps(r, call, names, ids, source);
  }

  lemma GrantsKept(r: State, call: CallId, names: seq<Expert>, ids: seq<ChildId>, source: string)
    requires r.used == Budget(r) && MayPrepare(r, call, names) && |ids| == |names|
    ensures var q := Prepared(r, call, names, ids, source);
      forall k | k in r.granted :: k in q.granted && q.granted[k] == r.granted[k]
  {
    var turn := r.parentTurn.value;
    var more := Grants(turn, names, ids);
    forall k | k in r.granted
      ensures k !in more
    {
      assert k.1 in GrantedIn(r.granted, k.0);
      assert k in more ==> k.0 == turn && k.1 in names;
    }
  }

  // While a call may be made, the file is bound to the host's turn.
  lemma FileBound(s: Codex, call: CallId, names: seq<Expert>)
    requires Good(s) && MayCall(s, call, names, true)
    ensures s.file.Some? && s.last.Some? && s.file.value.turn == s.last == s.reviews.parentTurn
    ensures s.reviews.used == Budget(s.reviews) && Norm(s.reviews) == s.reviews
  {
  }

  lemma GrantsCarry(calls: Calls, g: Grant, h: Grant)
    requires CallsGranted(calls, g) && forall k | k in g :: k in h && h[k] == g[k]
    ensures CallsGranted(calls, h)
  {
  }

  lemma AlwaysOn(s: Codex, q: State)
    requires Always(s) && s.restored && s.file.Some? && s.last.Some? && s.file.value.turn == s.last
    requires Inv(Norm(q)) && q.turns == s.reviews.turns && q.parent == s.reviews.parent
    requires q.progress == s.reviews.progress
    requires CallsGranted(s.file.value.calls, q.granted)
    ensures Always(s.(reviews := q))
  {
  }

  lemma PrepareFields(r: State, call: CallId, names: seq<Expert>, ids: seq<ChildId>, source: string)
    requires MayPrepare(r, call, names) && |ids| == |names|
    ensures var q := Prepared(r, call, names, ids, source);
      && q.turns == r.turns && q.parent == r.parent && q.progress == r.progress && q.parentTurn == r.parentTurn
      && q.live == r.live && q.seen == r.seen + {call} && q.used == r.used + Elements(names) && |q.used| <= 2
      && (forall c :: c in q.records <==> c in r.records || c == call)
      && (forall c | c in r.records && c != call :: q.records[c] == r.records[c])
      && C.Names(q.records[call]) == names && q.parentTurn == Some(q.records[call].parentTurn)
      && (forall i | 0 <= i < |q.records[call].children| :: ChildHonest(q.records[call].children[i]))
  {
    assert C.Names(Prepared(r, call, names, ids, source).records[call]) == names;
  }

  lemma FileCarries(calls: Calls, r: State, call: CallId, names: seq<Expert>, ids: seq<ChildId>, source: string)
    requires r.used == Budget(r) && MayPrepare(r, call, names) && |ids| == |names| && CallsGranted(calls, r.granted)
    ensures CallsGranted(calls, Prepared(r, call, names, ids, source).granted)
  {
    GrantsKept(r, call, names, ids, source);
    GrantsCarry(calls, r.granted, Prepared(r, call, names, ids, source).granted);
  }

  // After preparing, before the record is entered: enough for a failing save.
  lemma PreparedAlways(s: Codex, call: CallId, names: seq<Expert>, ids: seq<ChildId>, source: string, q: State)
    requires Good(s) && MayCall(s, call, names, true)
    requires |ids| == |names| && q == Prepared(s.reviews, call, names, ids, source) && Inv(Norm(q))
    ensures Always(s.(reviews := q))
  {
    FileBound(s, call, names);
    PrepareFields(s.reviews, call, names, ids, source);
    FileCarries(s.file.value.calls, s.reviews, call, names, ids, source);
    AlwaysOn(s, q);
  }

  lemma AlwaysFailed(s: Codex, q: State, book: Option<Book>)
    requires Always(s) && s.restored && book.Some? && Inv(Norm(q))
    requires q.granted == s.reviews.granted && q.turns == s.reviews.turns && q.parent == s.reviews.parent
    requires q.progress == s.reviews.progress
    ensures Good(s.(reviews := q, book := book, failed := true, revoked := true))
  {
  }

  // A digest that cannot be computed closes the adapter before anything is written.
  lemma UnhashedGood(s: Codex, call: CallId, first: Io, second: Io)
    requires Always(s) && s.restored && call in s.reviews.records && call !in s.book.value.calls
    ensures var t := RevokeAll(s, first, second);
      Good(t) && t.restored && t.failed && t.callers == s.callers && t.file == s.file && call !in t.reviews.live
  {
    PlainKeeps(s.reviews, DoSettle);
    var b := s.book.value;
    var book := Some(b.(calls := WithRecords(b.calls, Settle(s.reviews).records)));
    AlwaysFailed(s, Settle(s.reviews), book);
    assert !Entered(s.(revoked := true, reviews := Settle(s.reviews)));
    assert RevokeAll(s, first, second) ==
      s.(reviews := Settle(s.reviews), book := book, failed := true, revoked := true);
  }

  lemma DroppedFailed(s: Codex, call: CallId)
    requires Good(s) && s.restored && s.failed && call !in s.reviews.live
    ensures Good(Dropped(s, call))
  {
    PlainKeeps(s.reviews, DoFinish(call));
  }

  lemma FinishKeepsInv(r: State, call: CallId)
    requires Inv(Norm(r)) && call !in r.live
    ensures Inv(Norm(Finish(r, call)))
  {
    PlainKeeps(r, DoFinish(call));
  }

  // A call whose entry is settled in the file may leave the protocol.
  lemma DroppedGood(s: Codex, call: CallId)
    requires Good(s) && s.restored && !s.failed && call !in s.reviews.live && call !in s.callers
    requires s.file == s.book && (call in s.book.value.calls ==> s.book.value.calls[call].settled)
    ensures Good(Dropped(s, call))
  {
    FinishKeepsInv(s.reviews, call);
    DroppedWhole(s, call);
    var t := Dropped(s, call);
    assert Always(t);
  }

  lemma DroppedRecords(calls: Calls, r: Records, live: set<CallId>, call: CallId, q: Records)
    requires RecordsEntered(calls, r, live) && GoneSettled(calls, r) && DeadTerminal(r, live)
    requires q == map c | c in r && c != call :: r[c]
    requires call in calls ==> calls[call].settled && AllTerminal(calls[call].record)
    ensures RecordsEntered(calls, q, live) && GoneSettled(calls, q) && DeadTerminal(q, live)
  {
  }

  lemma DroppedWhole(s: Codex, call: CallId)
    requires s.book.Some? && Whole(s) && BookAccepted(s.book.value) && call !in s.callers && call !in s.reviews.live
    requires call in s.book.value.calls ==> s.book.value.calls[call].settled
    ensures Whole(Dropped(s, call))
  {
    var calls, r, q := s.book.value.calls, s.reviews, Finish(s.reviews, call);
    if call in calls {
      assert EntryAccepted(calls[call], s.book.value.turn);
    }
    DroppedRecords(calls, r.records, r.live, call, q.records);
    DroppedCallers(s.callers, r, call, q);
  }

  lemma DroppedCallers(callers: map<CallId, Stage>, r: State, call: CallId, q: State)
    requires CallersOk(callers, r) && call !in callers && q == Finish(r, call)
    ensures CallersOk(callers, q)
  {
  }

  // A new entry: its experts are new, its children granted.
  lemma EnteredExperts(calls: Calls, call: CallId, entry: Entry)
    requires call !in calls
    ensures ExpertsIn(calls[call := entry], calls.Keys + {call}) ==
      ExpertsIn(calls, calls.Keys) + Elements(entry.experts)
  {
    var more := calls[call := entry];
    forall n
      ensures n in ExpertsIn(more, calls.Keys + {call}) <==> n in ExpertsIn(calls, calls.Keys) + Elements(entry.experts)
    {
      if n in ExpertsIn(calls, calls.Keys) {
        var c :| c in calls && n in calls[c].experts;
        assert c in more && n in more[c].experts;
      }
      if n in entry.experts {
        assert call in more && n in more[call].experts;
      }
    }
  }

  lemma EnteredApart(calls: Calls, call: CallId, entry: Entry)
    requires call !in calls && CallsApart(calls, calls.Keys)
    requires forall n | n in entry.experts :: n !in ExpertsIn(calls, calls.Keys)
    ensures CallsApart(calls[call := entry], calls.Keys + {call})
  {
    var more := calls[call := entry];
    forall c, d, n | c in more && d in more && n in more[c].experts && n in more[d].experts
      ensures c == d
    {
      assert c != call ==> c in calls && n in calls[c].experts && n in ExpertsIn(calls, calls.Keys);
      assert d != call ==> d in calls && n in calls[d].experts && n in ExpertsIn(calls, calls.Keys);
    }
  }

  lemma EnteredBook(b: Book, r: State, call: CallId, entry: Entry, q: State)
    requires BookOk(b, r) && call !in b.calls && EntryShaped(entry, r.parentTurn)
    requires forall n | n in entry.experts :: n !in r.used
    requires q.parentTurn == r.parentTurn && q.seen == r.seen + {call} && q.used == r.used + Elements(entry.experts)
    requires |q.used| <= 2
    ensures BookOk(b.(calls := b.calls[call := entry]), q)
  {
    var more := b.calls[call := entry];
    assert more.Keys == b.calls.Keys + {call};
    EnteredExperts(b.calls, call, entry);
    EnteredApart(b.calls, call, entry);
    EnteredShaped(b.calls, call, entry, b.turn, more);
  }

  lemma EnteredShaped(calls: Calls, call: CallId, entry: Entry, turn: Option<Turn>, more: Calls)
    requires more == calls[call := entry] && EntryShaped(entry, turn)
    requires forall c | c in calls :: EntryShaped(calls[c], turn)
    ensures forall c | c in more :: EntryShaped(more[c], turn)
  {
  }

  lemma EnteredGranted(calls: Calls, call: CallId, entry: Entry, q: State)
    requires CallsGranted(calls, q.granted) && ChildrenGranted(q.records, q.granted)
    requires call in q.records && q.records[call] == entry.record
    ensures CallsGranted(calls[call := entry], q.granted)
  {
    var more := calls[call := entry];
    forall c, i | In(more, c, i)
      ensures (more[c].record.parentTurn, At(more, c, i).expert) in q.granted
        && q.granted[(more[c].record.parentTurn, At(more, c, i).expert)] == At(more, c, i).id
    {
      if c == call {
        assert Has(q.records, call, i) && Kid(q.records, call, i) == At(more, c, i);
      } else {
        assert In(calls, c, i);
      }
    }
  }

  // The state in which the call runs, before its first save.
  function Launched(s: Codex, call: CallId, names: seq<Expert>, q: State): Codex
    requires s.book.Some? && call in q.records
  {
    var b := s.book.value;
    s.(reviews := Launch(q, call), callers := s.callers[call := Executing],
       book := Some(b.(calls := b.calls[call := Entry(names, q.records[call], false, false)])))
  }

  lemma LaunchedAlways(s: Codex, call: CallId, names: seq<Expert>, q: State)
    requires Always(s.(reviews := q)) && s.restored && s.book.Some? && MayLaunch(q, call)
    ensures Always(Launched(s, call, names, q))
  {
    PlainKeeps(q, DoLaunch(call));
    LaunchKeepsFile(s.(reviews := q), Launch(q, call), call, Launched(s, call, names, q).book);
  }

  lemma LaunchKeepsFile(s: Codex, q: State, call: CallId, book: Option<Book>)
    requires Always(s) && s.restored && Inv(Norm(q)) && book.Some?
    requires q.granted == s.reviews.granted && q.turns == s.reviews.turns && q.parent == s.reviews.parent
    requires q.progress == s.reviews.progress[call := Gathering]
    ensures Always(s.(reviews := q, callers := s.callers[call := Executing], book := book))
  {
  }

  lemma LaunchedBook(s: Codex, call: CallId, names: seq<Expert>, ids: seq<ChildId>, source: string, q: State)
    requires s.book.Some? && BookOk(s.book.value, s.reviews) && CallsGranted(s.book.value.calls, s.reviews.granted)
    requires call !in s.book.value.calls && MayPrepare(s.reviews, call, names) && s.reviews.used == Budget(s.reviews)
    requires |ids| == |names| && q == Prepared(s.reviews, call, names, ids, source)
    requires ChildrenGranted(q.records, q.granted)
    ensures var b := Launched(s, call, names, q).book.value; BookOk(b, q) && CallsGranted(b.calls, q.granted)
  {
    PrepareFields(s.reviews, call, names, ids, source);
    var entry := Entry(names, q.records[call], false, false);
    assert BookOk(s.book.value.(calls := s.book.value.calls[call := entry]), q) by {
      EnteredBook(s.book.value, s.reviews, call, entry, q);
    }
    assert CallsGranted(s.book.value.calls, q.granted) by {
      GrantsKept(s.reviews, call, names, ids, source);
      GrantsCarry(s.book.value.calls, s.reviews.granted, q.granted);
    }
    EnteredGranted(s.book.value.calls, call, entry, q);
  }

  // The other records stay as they were, and the new one is live.
  ghost predicate OneMore(r: Records, q: Records, call: CallId) {
    && (forall c :: c in q <==> c in r || c == call)
    && (forall c | c in r && c != call :: q[c] == r[c])
  }

  lemma LaunchedEntries(calls: Calls, r: Records, live: set<CallId>, call: CallId, entry: Entry, q: Records)
    requires RecordsEntered(calls, r, live) && GoneSettled(calls, r) && call !in calls && OneMore(r, q, call)
    requires C.Names(q[call]) == entry.experts && entry.record == q[call] && !entry.settled
    ensures RecordsEntered(calls[call := entry], q, live + {call})
    ensures GoneSettled(calls[call := entry], q)
  {
  }

  lemma LaunchedDead(r: Records, live: set<CallId>, call: CallId, q: Records)
    requires DeadTerminal(r, live) && OneMore(r, q, call)
    ensures DeadTerminal(q, live + {call})
  {
  }

  lemma LaunchedCallers(callers: map<CallId, Stage>, r: State, q: State, call: CallId)
    requires CallersOk(callers, r) && OneMore(r.records, q.records, call) && q.progress == r.progress
    ensures CallersOk(callers[call := Executing], Launch(q, call))
  {
  }

  lemma LaunchedWhole(s: Codex, call: CallId, names: seq<Expert>, ids: seq<ChildId>, source: string, q: State)
    requires s.book.Some? && Whole(s) && MayPrepare(s.reviews, call, names) && !s.revoked
    requires call !in s.book.value.calls && call !in s.reviews.records
    requires |ids| == |names| && q == Prepared(s.reviews, call, names, ids, source)
    requires ChildrenGranted(q.records, q.granted) && Norm(q) == q
    ensures Whole(Launched(s, call, names, q))
  {
    LaunchedBook(s, call, names, ids, source, q);
    PrepareFields(s.reviews, call, names, ids, source);
    assert OneMore(s.reviews.records, q.records, call);
    LaunchedEntries(s.book.value.calls, s.reviews.records, s.reviews.live, call,
      Entry(names, q.records[call], false, false), q.records);
    LaunchedDead(s.reviews.records, s.reviews.live, call, q.records);
    LaunchedCallers(s.callers, s.reviews, q, call);
    WholeParts(s, Launched(s, call, names, q), q);
  }

  lemma WholeParts(s: Codex, t: Codex, q: State)
    requires s.book.Some? && t.book.Some? && SameTurn(s.file, s.book.value)
    requires t.book.value.turn == s.book.value.turn && t.file == s.file
    requires BookOk(t.book.value, q) && CallsGranted(t.book.value.calls, q.granted)
    requires t.reviews.parentTurn == q.parentTurn && t.reviews.used == q.used && t.reviews.seen == q.seen
    requires t.reviews.granted == q.granted
    requires RecordsEntered(t.book.value.calls, t.reviews.records, t.reviews.live)
    requires GoneSettled(t.book.value.calls, t.reviews.records)
    requires DeadTerminal(t.reviews.records, t.reviews.live) && CallersOk(t.callers, t.reviews)
    requires q.used == Budget(q)
    ensures Whole(t)
  {
  }

  // A failed first save leaves the same file a successful one could.
  lemma CallLost(s: Codex, t: Codex, call: CallId, names: seq<Expert>, q: State, io: Io)
    requires Always(s.(reviews := q)) && s.restored && !s.failed && s.book.Some? && call in q.records && call !in q.live
    requires t == Launched(s, call, names, q) && Good(Save(t, io)) && io.Raises() && Entered(t)
    requires Inv(Norm(q))
    ensures var b := s.book.value;
      var entered :=
        s.(reviews := q, book := Some(b.(calls := b.calls[call := Entry(names, q.records[call], false, false)])));
      Good(Save(entered, io)) && Save(entered, io).restored && Save(entered, io).failed
  {
    PlainKeeps(q, DoRevoke);
    var b := s.book.value;
    var entered :=
      s.(reviews := q, book := Some(b.(calls := b.calls[call := Entry(names, q.records[call], false, false)])));
    assert Entered(entered);
    assert Recorded(entered.book.value, q) == Recorded(t.book.value, t.reviews);
    assert Save(entered, io).file == Save(t, io).file;
  }

  lemma CallUnhashedIs(s: Codex, call: CallId, names: seq<Expert>, ids: seq<ChildId>, source: string, q: State,
                       io: Io, first: Io, second: Io)
    requires MayCall(s, call, names, true) && |ids| == |names| && q == Prepared(s.reviews, call, names, ids, source)
    ensures Call(s, call, names, ids, source, true, false, io, first, second) ==
      Ruined(s.(reviews := q), call, first, second)
  {
  }

  lemma CallUnhashed(s: Codex, call: CallId, names: seq<Expert>, ids: seq<ChildId>, source: string, q: State,
                     io: Io, first: Io, second: Io)
    requires MayCall(s, call, names, true) && |ids| == |names| && q == Prepared(s.reviews, call, names, ids, source)
    requires Always(s.(reviews := q))
    ensures Good(Call(s, call, names, ids, source, true, false, io, first, second))
  {
    CallUnhashedIs(s, call, names, ids, source, q, io, first, second);
    UnhashedGood(s.(reviews := q), call, first, second);
    DroppedFailed(RevokeAll(s.(reviews := q), first, second), call);
  }

  lemma CallHashed(s: Codex, call: CallId, names: seq<Expert>, ids: seq<ChildId>, source: string, q: State,
                   io: Io, first: Io, second: Io)
    requires MayCall(s, call, names, true) && Whole(s) && call !in s.reviews.records
    requires |ids| == |names| && q == Prepared(s.reviews, call, names, ids, source) && MayLaunch(q, call)
    requires call !in q.live
    requires Always(s.(reviews := q)) && Inv(q) && Norm(q) == q
    ensures Good(Call(s, call, names, ids, source, true, true, io, first, second))
  {
    LaunchedAlways(s, call, names, q);
    LaunchedWhole(s, call, names, ids, source, q);
    var t := Launched(s, call, names, q);
    SaveGood(t, io);
    if io.Raises() {
      CallFails(s, call, names, q, io, first, second);
    }
    CallIs(s, call, names, ids, source, q, io, first, second);
    StartedIs(s, call, names, q, io, first, second);
  }

  lemma CallEither(s: Codex, call: CallId, names: seq<Expert>, ids: seq<ChildId>, source: string, q: State,
                   hashed: bool, io: Io, first: Io, second: Io)
    requires MayCall(s, call, names, true) && Whole(s) && call !in s.reviews.records
    requires |ids| == |names| && q == Prepared(s.reviews, call, names, ids, source) && MayLaunch(q, call)
    requires call !in q.live
    requires Always(s.(reviews := q)) && Inv(q) && Norm(q) == q
    ensures Good(Call(s, call, names, ids, source, true, hashed, io, first, second))
  {
    if hashed {
      CallHashed(s, call, names, ids, source, q, io, first, second);
    } else {
      CallUnhashed(s, call, names, ids, source, q, io, first, second);
    }
  }

  lemma PreparedWaits(r: State, call: CallId, names: seq<Expert>, ids: seq<ChildId>, source: string)
    requires MayPrepare(r, call, names) && |ids| == |names| && call !in r.live
    ensures MayLaunch(Prepared(r, call, names, ids, source), call)
  {
  }

  lemma CallMade(s: Codex, call: CallId, names: seq<Expert>, ids: seq<ChildId>, source: string, q: State,
                 hashed: bool, io: Io, first: Io, second: Io)
    requires Good(s) && MayCall(s, call, names, true) && |ids| == |names| && call !in s.reviews.records
    requires q == Prepared(s.reviews, call, names, ids, source) && Inv(q) && Norm(q) == q && call !in s.reviews.live
    ensures Good(Call(s, call, names, ids, source, true, hashed, io, first, second))
  {
    PreparedWaits(s.reviews, call, names, ids, source);
    PreparedAlways(s, call, names, ids, source, q);
    CallEither(s, call, names, ids, source, q, hashed, io, first, second);
  }

  lemma CallBound(s: Codex, call: CallId, names: seq<Expert>, ids: seq<ChildId>, source: string, q: State,
                  hashed: bool, io: Io, first: Io, second: Io)
    requires Good(s) && MayCall(s, call, names, true) && |ids| == |names| && FreshIds(s.reviews, names, ids)
    requires q == Prepared(s.reviews, call, names, ids, source) && call !in s.reviews.records
    ensures Good(Call(s, call, names, ids, source, true, hashed, io, first, second))
  {
    PreparedInv(s.reviews, call, names, ids, source);
    CallMade(s, call, names, ids, source, q, hashed, io, first, second);
  }

  lemma CallAdmitted(s: Codex, call: CallId, names: seq<Expert>, ids: seq<ChildId>, source: string,
                     hashed: bool, io: Io, first: Io, second: Io)
    requires Good(s) && MayCall(s, call, names, true) && |ids| == |names| && FreshIds(s.reviews, names, ids)
    ensures Good(Call(s, call, names, ids, source, true, hashed, io, first, second))
  {
    assert call !in s.reviews.records by { assert call !in s.reviews.seen; }
    CallBound(s, call, names, ids, source, Prepared(s.reviews, call, names, ids, source), hashed, io, first, second);
  }

  lemma CallGood(s: Codex, call: CallId, names: seq<Expert>, ids: seq<ChildId>, source: string,
                 admitted: bool, hashed: bool, io: Io, first: Io, second: Io)
    requires Good(s) && |ids| == |names| && FreshIds(s.reviews, names, ids)
    ensures Good(Call(s, call, names, ids, source, admitted, hashed, io, first, second))
  {
    if MayCall(s, call, names, admitted) {
      CallAdmitted(s, call, names, ids, source, hashed, io, first, second);
    }
  }

  lemma CallIs(s: Codex, call: CallId, names: seq<Expert>, ids: seq<ChildId>, source: string, q: State,
               io: Io, first: Io, second: Io)
    requires MayCall(s, call, names, true) && |ids| == |names| && q == Prepared(s.reviews, call, names, ids, source)
    ensures Call(s, call, names, ids, source, true, true, io, first, second) ==
      Started(EnteredAs(s.(reviews := q), call, names), call, io, first, second)
  {
  }

  lemma StartedIs(s: Codex, call: CallId, names: seq<Expert>, q: State, io: Io, first: Io, second: Io)
    requires s.book.Some? && !s.failed && MayLaunch(q, call) && Entered(Launched(s, call, names, q))
    ensures Started(EnteredAs(s.(reviews := q), call, names), call, io, first, second) ==
      if io.Raises() then Ruined(Save(EnteredAs(s.(reviews := q), call, names), io), call, first, second)
      else Save(Launched(s, call, names, q), io)
  {
    var e := EnteredAs(s.(reviews := q), call, names);
    assert Entered(e) && SaveRaises(e, io) == io.Raises();
    assert !io.Raises() ==> Save(e, io).reviews == q;
  }

  lemma CallFails(s: Codex, call: CallId, names: seq<Expert>, q: State, io: Io, first: Io, second: Io)
    requires Always(s.(reviews := q)) && s.restored && !s.failed && s.book.Some? && call in q.records && call !in q.live
    requires var t := Launched(s, call, names, q); Good(Save(t, io)) && Entered(t)
    requires io.Raises() && Inv(Norm(q))
    ensures Good(Ruined(Save(EnteredAs(s.(reviews := q), call, names), io), call, first, second))
  {
    var t := Launched(s, call, names, q);
    CallLost(s, t, call, names, q, io);
    var saved := Save(EnteredAs(s.(reviews := q), call, names), io);
    RevokeAllGood(saved, first, second);
    RevokedDead(saved, first, second);
    DroppedFailed(RevokeAll(saved, first, second), call);
  }

  lemma SaveDead(s: Codex, io: Io)
    requires s.book.Some? && s.reviews.live == {}
    ensures var t := Save(s, io);
      t.book.Some? && t.reviews.live == {} && (s.failed ==> t.failed) && t.reviews.progress == s.reviews.progress
  {
  }

  lemma RevokedDead(s: Codex, first: Io, second: Io)
    requires s.book.Some?
    ensures var t := RevokeAll(s, first, second);
      && t.reviews.live == {} && (s.failed ==> t.failed) && t.reviews.progress == s.reviews.progress
  {
    var r := s.(revoked := true, reviews := Settle(s.reviews));
    SaveDead(r, first);
    var s1 := Save(r, first);
    if !SaveRaises(s, first) {
      SaveDead(EntriesDone(s1), second);
    }
  }

  // ---------------------------------------------------------------- workers

  lemma GuestsFrame(r: State, q: State)
    requires q == r.(records := q.records, tasks := q.tasks, told := q.told, asked := q.asked)
    requires P.SameGuests(r.records, q.records) && DeadTerminal(q.records, q.live)
    ensures Frame(r, q) && q.records.Keys == r.records.Keys
  {
    forall c | c in q.records
      ensures C.Names(q.records[c]) == C.Names(r.records[c])
    {
      forall i | 0 <= i < |q.records[c].children|
        ensures C.Names(q.records[c])[i] == C.Names(r.records[c])[i]
      {
        assert Has(q.records, c, i);
      }
    }
  }

  lemma PutFrame(r: State, call: CallId, i: nat, child: Child)
    requires Has(r.records, call, i) && call in r.live && DeadTerminal(r.records, r.live)
    requires child.id == Kid(r.records, call, i).id && child.expert == Kid(r.records, call, i).expert
    ensures var q := PutChild(r, call, i, child); P.SameGuests(r.records, q.records) && DeadTerminal(q.records, r.live)
  {
    var q := PutChild(r, call, i, child);
    forall c, j | Has(q.records, c, j)
      ensures Has(r.records, c, j) && Kid(q.records, c, j).id == Kid(r.records, c, j).id
      ensures Kid(q.records, c, j).expert == Kid(r.records, c, j).expert
    {
    }
  }

  lemma QueuedLive(r: State, call: CallId, i: nat)
    requires Inv(Norm(r)) && (call, i) in r.tasks && r.tasks[(call, i)] == Queued(false)
    ensures call in r.live && Has(r.records, call, i)
  {
    assert QueuedWait(r.records, r.live, r.tasks);
  }

  lemma StartFrame(r: State, call: CallId, i: nat, saved: bool, expired: bool, failureSaved: bool)
    requires Has(r.records, call, i) && call in r.live && DeadTerminal(r.records, r.live)
    ensures var q := StartWork(r, call, i, saved, expired, failureSaved);
      Frame(r, q) && q.records.Keys == r.records.Keys && q.progress == r.progress && q.live == r.live
  {
    var q := StartWork(r, call, i, saved, expired, failureSaved);
    var running := Kid(r.records, call, i).(state := Running);
    var failed := running.(state := Failed, result := None, error := AnalysisFailed);
    PutFrame(r, call, i, running);
    PutFrame(r, call, i, failed);
    P.PutTwice(r, call, i, running, failed);
    GuestsFrame(r, q);
  }

  lemma FinishFrame(r: State, call: CallId, i: nat, answer: Option<Report>, saved: bool)
    requires DeadTerminal(r.records, r.live)
    ensures var q := FinishWork(r, call, i, answer, saved);
      Frame(r, q) && q.records.Keys == r.records.Keys && q.progress == r.progress
  {
    if WorkCounts(r, call, i) {
      PutFrame(r, call, i, Answered(Kid(r.records, call, i), answer));
    }
    GuestsFrame(r, FinishWork(r, call, i, answer, saved));
  }

  lemma StartFields(r: State, call: CallId, i: nat, saved: bool, expired: bool, failureSaved: bool)
    ensures var q := StartWork(r, call, i, saved, expired, failureSaved);
      q.progress == r.progress && q.granted == r.granted && q.turns == r.turns && q.parent == r.parent
  {
  }

  lemma BegunWorkGood(s: Codex, call: CallId, i: nat, expired: bool)
    requires Good(s) && s.restored && ExpertReviews.Enabled(s.reviews, DoStartWork(call, i, false, expired, false))
    requires Has(s.reviews.records, call, i) && call in s.reviews.live
    ensures Good(s.(reviews := StartWork(s.reviews, call, i, false, expired, false)))
  {
    var q := StartWork(s.reviews, call, i, false, expired, false);
    assert Inv(Norm(q)) by { PlainKeeps(s.reviews, DoStartWork(call, i, false, expired, false)); }
    StartFields(s.reviews, call, i, false, expired, false);
    if !s.failed {
      StartFrame(s.reviews, call, i, false, expired, false);
    }
    FrameGood(s, q);
  }

  // The copied book and the written file stay good when the worker goes on.
  lemma GoodElsewhere(s: Codex, s1: Codex, q: State)
    requires Good(s1) && s1.restored && !s1.failed && !s.failed && s.restored && s.book.Some? && Whole(s)
    requires s1 == s.(reviews := s1.reviews, book := s1.book, file := s1.file)
    requires Frame(s.reviews, s1.reviews) && s1.reviews.records.Keys == s.reviews.records.Keys
    requires s1.reviews.live == s.reviews.live
    requires Frame(s.reviews, q) && q.records.Keys == s.reviews.records.Keys && q.progress == s1.reviews.progress
    requires Inv(Norm(q))
    ensures Good(s1.(reviews := q))
  {
    FrameGood(s1, q);
  }

  lemma ExpertStartGood(s: Codex, call: CallId, i: nat, first: Io, expired: bool, second: Io)
    requires Good(s) && s.restored && ExpertReviews.Enabled(s.reviews, DoStartWork(call, i, false, expired, false))
    ensures Good(ExpertStart(s, call, i, first, expired, second))
  {
    QueuedLive(s.reviews, call, i);
    BegunWorkGood(s, call, i, expired);
    var begun := s.(reviews := StartWork(s.reviews, call, i, false, expired, false));
    SaveGood(begun, first);
    if !SaveRaises(begun, first) {
      var ok := !SaveRaises(Save(begun, first), second);
      ContinueGood(s, Save(begun, first), call, i, expired, ok,
                   StartWork(s.reviews, call, i, true, expired, ok), second);
    }
    ExpertStartIs(s, call, i, first, expired, second);
  }

  lemma ExpertStartIs(s: Codex, call: CallId, i: nat, first: Io, expired: bool, second: Io)
    requires s.book.Some? && Has(s.reviews.records, call, i)
    ensures var begun := s.(reviews := StartWork(s.reviews, call, i, false, expired, false));
      var s1 := Save(begun, first);
      var s2 := s1.(reviews := StartWork(s.reviews, call, i, true, expired, !SaveRaises(s1, second)));
      var t := ExpertStart(s, call, i, first, expired, second);
      if SaveRaises(begun, first) then t == s1 else t == s2 || t == Save(s2, second)
  {
  }

  lemma ContinuedGood(s: Codex, s1: Codex, call: CallId, i: nat, expired: bool, ok: bool, q: State)
    requires Has(s.reviews.records, call, i) && call in s.reviews.live
    requires ExpertReviews.Enabled(s.reviews, DoStartWork(call, i, false, expired, false))
    requires s1.reviews == StartWork(s.reviews, call, i, false, expired, false)
    requires q == StartWork(s.reviews, call, i, true, expired, ok)
    requires s1 == s.(reviews := s1.reviews, book := s1.book, file := s1.file)
    requires Good(s) && Good(s1) && s1.restored && !s1.failed && !s.failed && s.restored
    ensures Good(s1.(reviews := q))
  {
    PlainKeeps(s.reviews, DoStartWork(call, i, true, expired, ok));
    StartFrame(s.reviews, call, i, false, expired, false);
    StartFrame(s.reviews, call, i, true, expired, ok);
    GoodElsewhere(s, s1, q);
  }

  lemma ContinueGood(s: Codex, s1: Codex, call: CallId, i: nat, expired: bool, ok: bool, q: State, second: Io)
    requires Has(s.reviews.records, call, i) && call in s.reviews.live
    requires ExpertReviews.Enabled(s.reviews, DoStartWork(call, i, false, expired, false))
    requires s1.reviews == StartWork(s.reviews, call, i, false, expired, false)
    requires q == StartWork(s.reviews, call, i, true, expired, ok)
    requires s1 == s.(reviews := s1.reviews, book := s1.book, file := s1.file)
    requires Good(s) && Good(s1) && s1.restored && !s1.failed && !s.failed && s.restored
    ensures Good(s1.(reviews := q)) && Good(Save(s1.(reviews := q), second))
  {
    ContinuedGood(s, s1, call, i, expired, ok, q);
    SaveGood(s1.(reviews := q), second);
  }

  lemma FinishedWorkGood(s: Codex, call: CallId, i: nat, answer: Option<Report>, saved: bool)
    requires Good(s) && s.restored && ExpertReviews.Enabled(s.reviews, DoFinishWork(call, i, answer, saved))
    ensures Good(s.(reviews := FinishWork(s.reviews, call, i, answer, saved)))
  {
    var q := FinishWork(s.reviews, call, i, answer, saved);
    assert Inv(Norm(q)) by { PlainKeeps(s.reviews, DoFinishWork(call, i, answer, saved)); }
    FinishProgress(s.reviews, call, i, answer, saved);
    if !s.failed {
      FinishFrame(s.reviews, call, i, answer, saved);
    }
    FrameGood(s, q);
  }

  lemma ExpertFinishGood(s: Codex, call: CallId, i: nat, answer: Option<Report>, io: Io)
    requires Good(s) && s.restored && ExpertReviews.Enabled(s.reviews, DoFinishWork(call, i, answer, false))
    ensures Good(ExpertFinish(s, call, i, answer, io))
  {
    var saved := !SaveRaises(s, io);
    FinishedWorkGood(s, call, i, answer, saved);
    SaveGood(s.(reviews := FinishWork(s.reviews, call, i, answer, saved)), io);
  }

  lemma FinishProgress(r: State, call: CallId, i: nat, answer: Option<Report>, saved: bool)
    ensures var q := FinishWork(r, call, i, answer, saved);
      q.progress == r.progress && q.granted == r.granted && q.turns == r.turns && q.parent == r.parent
  {
  }

  lemma DropGood(s: Codex, call: CallId, i: nat)
    requires Good(s) && ExpertReviews.Enabled(s.reviews, DoDropWork(call, i))
    ensures Good(s.(reviews := DropWork(s.reviews, call, i)))
  {
    assert s.restored;
    PlainKeeps(s.reviews, DoDropWork(call, i));
    FrameGood(s, DropWork(s.reviews, call, i));
  }

  // ---------------------------------------------------------------- leaving `execute`

  lemma JudgeFields(r: State, call: CallId, sourceSame: bool)
    requires call in r.records
    ensures var q := Judge(r, call, sourceSame);
      && q.granted == r.granted && q.turns == r.turns && q.parent == r.parent
      && q.progress == r.progress[call := Judged] && q.records.Keys == r.records.Keys
  {
  }

  lemma JudgedCallers(callers: map<CallId, Stage>, r: State, call: CallId, q: State)
    requires CallersStand(callers, r.progress) && call in callers && callers[call] == Executing
    requires q.records.Keys == r.records.Keys && q.progress == r.progress[call := Judged]
    ensures CallersStand(callers, q.progress)
    ensures CallersOk(callers, r) ==> CallersOk(callers, q)
  {
  }

  lemma JudgedGood(s: Codex, call: CallId, sourceSame: bool)
    requires Good(s) && s.restored && InExecute(s, call) && MayJudge(s.reviews, call)
    ensures Good(s.(reviews := Judge(s.reviews, call, sourceSame)))
  {
    var q := Judge(s.reviews, call, sourceSame);
    JudgeFields(s.reviews, call, sourceSame);
    JudgedCallers(s.callers, s.reviews, call, q);
    if !s.failed {
      JudgeFrame(s.reviews, call, sourceSame);
    }
    JudgeInv(s.reviews, call, sourceSame);
    FrameGood(s, q);
  }

  lemma JudgeInv(r: State, call: CallId, sourceSame: bool)
    requires Inv(Norm(r)) && MayJudge(r, call)
    ensures Inv(Norm(Judge(r, call, sourceSame)))
  {
    PlainKeeps(r, DoJudge(call, sourceSame));
  }

  lemma JudgeFrame(r: State, call: CallId, sourceSame: bool)
    requires call in r.records && call in r.live && DeadTerminal(r.records, r.live)
    ensures Frame(r, Judge(r, call, sourceSame)) && Judge(r, call, sourceSame).records.Keys == r.records.Keys
  {
    var q := Judge(r, call, sourceSame);
    assert C.Names(q.records[call]) == C.Names(r.records[call]);
  }

  // The caller leaves `execute`: its call is over and no longer live.
  lemma LeftGood(s: Codex, call: CallId, q: State, normal: bool)
    requires Good(s) && s.restored && InExecute(s, call) && Inv(Norm(q))
    requires q.granted == s.reviews.granted && q.turns == s.reviews.turns && q.parent == s.reviews.parent
    requires q.progress == s.reviews.progress[call := Draining]
    requires !s.failed ==> Frame(s.reviews, q) && q.records == s.reviews.records
    ensures Good(s.(reviews := q, callers := s.callers[call := Leaving(normal)]))
  {
    var t := s.(reviews := q, callers := s.callers[call := Leaving(normal)]);
    assert Always(t);
    if !s.failed {
      assert CallersOk(t.callers, q);
      FrameWholeLeft(s, t);
    }
  }

  lemma FrameWholeLeft(s: Codex, t: Codex)
    requires s.book.Some? && Whole(s) && Frame(s.reviews, t.reviews) && t.reviews.records == s.reviews.records
    requires t == s.(reviews := t.reviews, callers := t.callers) && CallersOk(t.callers, t.reviews)
    ensures Whole(t)
  {
  }

  lemma LeaveKeepsInv(r: State, call: CallId)
    requires Inv(Norm(r)) && call !in r.live && call in r.progress
    ensures Inv(Norm(Leave(r, call)))
  {
    PlainKeeps(r, DoLeave(call));
  }

  lemma LeaveGood(s: Codex, call: CallId, normal: bool)
    requires Good(s) && s.restored && InExecute(s, call) && call !in s.reviews.live
    ensures Good(s.(reviews := Leave(s.reviews, call), callers := s.callers[call := Leaving(normal)]))
  {
    LeaveKeepsInv(s.reviews, call);
    LeftGood(s, call, Leave(s.reviews, call), normal);
  }

  lemma AbortGood(s: Codex, call: CallId, io: Io)
    requires Good(s) && s.restored && InExecute(s, call)
    ensures Good(Abort(s, call, io))
  {
    SettleSaveGood(s, io);
    SettleDead(s, io);
    LeaveGood(SettleSave(s, io), call, false);
  }

  lemma SettleDead(s: Codex, io: Io)
    requires s.book.Some?
    ensures SettleSave(s, io).reviews.live == {}
  {
  }

  lemma AnnouncedInv(r: State, call: CallId, q: State)
    requires ExpertReviews.Enabled(r, DoAnnounce(call)) && q == Announce(r, call) && Inv(Norm(r))
    ensures Inv(Norm(q)) && q.progress == r.progress[call := Draining]
  {
    PlainKeeps(r, DoAnnounce(call));
  }

  lemma AnnouncedFrame(r: State, call: CallId, q: State)
    requires ExpertReviews.Enabled(r, DoAnnounce(call)) && q == Announce(r, call)
    requires DeadTerminal(r.records, r.live) && JudgedDecided(r.records, r.live, r.progress)
    ensures Frame(r, q) && q.records == r.records
  {
    JudgedTerminal(r, call);
  }

  lemma AnnouncedGood(s: Codex, call: CallId, q: State)
    requires ExpertReviews.Enabled(s.reviews, DoAnnounce(call)) && q == Announce(s.reviews, call)
    requires Good(s) && s.restored && InExecute(s, call)
    ensures Good(s.(reviews := q, callers := s.callers[call := Leaving(true)]))
  {
    AnnouncedInv(s.reviews, call, q);
    if !s.failed {
      AnnouncedFrame(s.reviews, call, q);
    }
    LeftGood(s, call, q, true);
  }

  lemma JudgedTerminal(r: State, call: CallId)
    requires JudgedDecided(r.records, r.live, r.progress) && ExpertReviews.Enabled(r, DoAnnounce(call))
    ensures AllTerminal(r.records[call])
  {
    forall i | 0 <= i < |r.records[call].children|
      ensures r.records[call].children[i].state.Terminal()
    {
      assert Has(r.records, call, i) && Kid(r.records, call, i).state.Terminal();
    }
  }

  lemma PublishedGood(s: Codex, call: CallId, io: Io, first: Io)
    requires ExpertReviews.Enabled(s.reviews, DoAnnounce(call))
    requires Good(s) && s.restored && InExecute(s, call)
    ensures Good(Published(s, call, io, first))
  {
    SaveGood(s, io);
    if SaveRaises(s, io) {
      AbortGood(Save(s, io), call, first);
    } else {
      AnnouncedGood(Save(s, io), call, Announce(s.reviews, call));
    }
  }

  lemma JudgeCallGood(s: Codex, call: CallId, sourceSame: bool, io: Io, first: Io)
    requires Good(s) && s.restored && InExecute(s, call) && MayJudge(s.reviews, call)
    ensures Good(JudgeCall(s, call, sourceSame, io, first))
  {
    JudgedGood(s, call, sourceSame);
    PublishedGood(s.(reviews := Judge(s.reviews, call, sourceSame)), call, io, first);
  }

  // ---------------------------------------------------------------- the end of a call

  lemma DrainKeepsInv(r: State, call: CallId)
    requires Inv(Norm(r)) && call in r.progress && r.progress[call].Draining?
    ensures Inv(Norm(Drain(r, call))) && call !in r.live
  {
    PlainKeeps(r, DoDrain(call));
  }

  lemma DrainedGood(s: Codex, call: CallId)
    requires Good(s) && s.restored && call in s.callers && s.callers[call].Leaving?
    ensures Good(s.(reviews := Drain(s.reviews, call), callers := s.callers - {call}))
    ensures call !in s.reviews.live
  {
    DrainKeepsInv(s.reviews, call);
    CallerRemoved(s, call, Drain(s.reviews, call));
  }

  lemma CallerRemovedOk(callers: map<CallId, Stage>, r: State, call: CallId, q: State)
    requires CallersOk(callers, r) && CallersStand(callers, r.progress) && call in callers && callers[call].Leaving?
    requires q == r.(progress := r.progress[call := Over])
    ensures CallersOk(callers - {call}, q) && CallersStand(callers - {call}, q.progress)
  {
  }

  lemma CallerRemoved(s: Codex, call: CallId, q: State)
    requires q == s.reviews.(progress := s.reviews.progress[call := Over])
    requires Good(s) && s.restored && call in s.callers && s.callers[call].Leaving? && Inv(Norm(q))
    ensures Good(s.(reviews := q, callers := s.callers - {call}))
  {
    if !s.failed {
      CallerRemovedOk(s.callers, s.reviews, call, q);
      FrameWholeLeft(s, s.(reviews := q, callers := s.callers - {call}));
    }
  }

  // Settling the entry of a call whose children are decided.
  lemma ClosedBook(b: Book, r: State, call: CallId, q: Calls)
    requires BookOk(b, r) && CallsGranted(b.calls, r.granted)
    requires call in b.calls && q.Keys == b.calls.Keys && forall c | c in q && c != call :: q[c] == b.calls[c]
    requires q[call].experts == b.calls[call].experts && q[call].record == b.calls[call].record
    ensures BookOk(b.(calls := q), r) && CallsGranted(q, r.granted)
  {
    CopiedExperts(b.calls, q);
    forall c, i | In(q, c, i)
      ensures In(b.calls, c, i) && At(q, c, i) == At(b.calls, c, i)
    {
    }
  }

  lemma ClosedGood(s: Codex, call: CallId, interrupted: bool)
    requires s.book.Some? && call in s.book.value.calls
    requires Good(s) && s.restored && !s.failed && call in s.reviews.records && call !in s.reviews.live
    ensures Good(Closed(s, call, interrupted))
  {
    var q := Closed(s, call, interrupted).book.value.calls;
    ClosedBook(s.book.value, s.reviews, call, q);
    ClosedWhole(s, q, call);
  }

  lemma ClosedWhole(s: Codex, q: Calls, call: CallId)
    requires s.book.Some? && Whole(s) && call in s.reviews.records && call !in s.reviews.live
    requires q.Keys == s.book.value.calls.Keys && BookOk(s.book.value.(calls := q), s.reviews)
    requires CallsGranted(q, s.reviews.granted)
    requires forall c | c in q ::
      q[c].experts == s.book.value.calls[c].experts && q[c].record == s.book.value.calls[c].record
    requires forall c | c in q && c != call :: q[c] == s.book.value.calls[c]
    ensures Whole(s.(book := Some(s.book.value.(calls := q))))
  {
  }

  lemma RevokedDropped(s: Codex, call: CallId, first: Io, second: Io)
    requires Good(s) && s.restored && call !in s.callers
    ensures Good(Ruined(s, call, first, second))
  {
    RevokeAllGood(s, first, second);
    RevokedDead(s, first, second);
    if RevokeAll(s, first, second).failed {
      DroppedFailed(RevokeAll(s, first, second), call);
    } else {
      DroppedGood(RevokeAll(s, first, second), call);
    }
  }

  lemma ClosedSaved(s: Codex, call: CallId, io: Io, first: Io, second: Io)
    requires Good(s) && s.restored && call !in s.callers && call !in s.reviews.live
    requires call in s.book.value.calls && s.book.value.calls[call].settled
    ensures Good(SavedAndDropped(s, call, io, first, second))
  {
    SaveGood(s, io);
    if SaveRaises(s, io) {
      RevokedDropped(Save(s, io), call, first, second);
    } else {
      DroppedGood(Save(s, io), call);
    }
  }

  lemma ClosedEitherGood(s: Codex, call: CallId, interrupted: bool)
    requires Good(s) && s.restored && call in s.book.value.calls && call !in s.reviews.live
    requires !s.failed ==> call in s.reviews.records
    ensures Good(Closed(s, call, interrupted))
  {
    if !s.failed {
      ClosedGood(s, call, interrupted);
    } else {
      assert Always(Closed(s, call, interrupted));
    }
  }

  lemma ReturnClosed(s: Codex, call: CallId, interrupted: bool, io: Io, first: Io, second: Io)
    requires Good(s) && s.restored && call !in s.callers && call !in s.reviews.live && call in s.book.value.calls
    requires !s.failed ==> call in s.reviews.records
    ensures var s1 := Closed(s, call, interrupted);
      Good(SavedAndDropped(s1, call, io, first, second))
  {
    ClosedEitherGood(s, call, interrupted);
    ClosedSaved(Closed(s, call, interrupted), call, io, first, second);
  }

  lemma ReturnedGood(s: Codex, call: CallId, normal: bool, changed: bool, io: Io, first: Io, second: Io)
    requires Good(s) && s.restored && call !in s.callers && call !in s.reviews.live
    requires !s.failed ==> call in s.reviews.records
    ensures Good(Returned(s, call, normal, changed, io, first, second))
  {
    if !normal || call !in s.book.value.calls {
      RevokedDropped(s, call, first, second);
    } else {
      var interrupted := s.book.value.calls[call].interrupted || s.revoked || s.failed || changed;
      ReturnClosed(s, call, interrupted, io, first, second);
    }
  }

  lemma ReturnGood(s: Codex, call: CallId, normal: bool, changed: bool, io: Io, first: Io, second: Io)
    requires Good(s) && s.restored && call in s.callers && s.callers[call].Leaving?
    ensures Good(Return(s, call, normal, changed, io, first, second))
  {
    DrainedGood(s, call);
    ReturnedGood(Drained(s, call), call, normal, changed, io, first, second);
  }

  // ---------------------------------------------------------------- every run

  lemma CallerRestored(s: Codex, call: CallId)
    requires Good(s) && call in s.callers
    ensures s.restored
  {
  }

  lemma TaskRestored(s: Codex, call: CallId, i: nat)
    requires Good(s) && (call, i) in s.reviews.tasks
    ensures s.restored
  {
  }

  lemma SameTurnGood(s: Codex)
    requires Good(s) && !s.restored && s.last.Some?
    ensures Good(s.(reviews := s.reviews.(parent := s.last)))
  {
    assert Bound(s.(reviews := s.reviews.(parent := s.last))) == Bound(s);
  }

  lemma JudgeStepGood(s: Codex, a: Step)
    requires Good(s) && Allowed(s, a) && a.DoJudgeCall?
    ensures Good(Next(s, a))
  {
    CallerRestored(s, a.call);
    JudgeCallGood(s, a.call, a.sourceSame, a.io, a.first);
  }

  lemma LeaveStepGood(s: Codex, a: Step)
    requires Good(s) && Allowed(s, a) && a.DoLeaveCall?
    ensures Good(Next(s, a))
  {
    CallerRestored(s, a.call);
    LeaveGood(s, a.call, true);
  }

  lemma EndStepGood(s: Codex, a: Step)
    requires Good(s) && Allowed(s, a) && (a.DoAbort? || a.DoReturn?)
    ensures Good(Next(s, a))
  {
    CallerRestored(s, a.call);
    if a.DoAbort? {
      AbortGood(s, a.call, a.io);
    } else {
      ReturnGood(s, a.call, a.normal, a.changed, a.io, a.first, a.second);
    }
  }

  lemma StartStepGood(s: Codex, a: Step)
    requires Good(s) && Allowed(s, a) && a.DoStart?
    ensures Good(Next(s, a))
  {
    TaskRestored(s, a.call, a.i);
    ExpertStartGood(s, a.call, a.i, a.first, a.expired, a.second);
  }

  lemma WorkerStepGood(s: Codex, a: Step)
    requires Good(s) && Allowed(s, a) && (a.DoAnswer? || a.DoDrop?)
    ensures Good(Next(s, a))
  {
    TaskRestored(s, a.call, a.i);
    if a.DoAnswer? {
      ExpertFinishGood(s, a.call, a.i, a.answer, a.io);
    } else {
      DropGood(s, a.call, a.i);
    }
  }

  lemma HostStepGood(s: Codex, a: Step)
    requires Good(s) && Allowed(s, a) && (a.DoTurn? || a.DoNoTurn? || a.DoSameTurn? || a.DoCrash?)
    ensures Good(Next(s, a))
  {
    match a
    case DoTurn(turn) => TurnGood(s, turn);
    case DoNoTurn => NoTurnGood(s);
    case DoSameTurn => SameTurnGood(s);
    case DoCrash => RebornGood(s);
  }

  lemma CallStepGood(s: Codex, a: Step)
    requires Good(s) && Allowed(s, a) && a.DoCall?
    ensures Good(Next(s, a))
  {
    CallGood(s, a.call, a.names, a.ids, a.source, a.admitted, a.hashed, a.io, a.first, a.second);
  }

  lemma AdapterStepGood(s: Codex, a: Step)
    requires Good(s) && Allowed(s, a) && (a.DoRestore? || a.DoBeginTurn? || a.DoRevokeAll?)
    ensures Good(Next(s, a))
  {
    match a
    case DoRestore(root, rootFine, io) => RestoreGood(s, root, rootFine, io);
    case DoBeginTurn(root, io) => BeginTurnGood(s, root, io);
    case DoRevokeAll(first, second) => RevokeAllGood(s, first, second);
  }

  lemma OuterStepGood(s: Codex, a: Step)
    requires Good(s) && Allowed(s, a)
    requires !a.DoStart? && !a.DoAnswer? && !a.DoDrop? && !a.DoJudgeCall? && !a.DoLeaveCall? && !a.DoAbort?
    requires !a.DoReturn?
    ensures Good(Next(s, a))
  {
    if a.DoCall? {
      CallStepGood(s, a);
    } else if a.DoRestore? || a.DoBeginTurn? || a.DoRevokeAll? {
      AdapterStepGood(s, a);
    } else {
      HostStepGood(s, a);
    }
  }

  lemma InnerStepGood(s: Codex, a: Step)
    requires Good(s) && Allowed(s, a) && (a.DoJudgeCall? || a.DoLeaveCall? || a.DoAbort? || a.DoReturn?)
    ensures Good(Next(s, a))
  {
    if a.DoJudgeCall? {
      JudgeStepGood(s, a);
    } else if a.DoLeaveCall? {
      LeaveStepGood(s, a);
    } else {
      EndStepGood(s, a);
    }
  }

  lemma StepGood(s: Codex, a: Step)
    requires Good(s) && Allowed(s, a)
    ensures Good(Next(s, a))
  {
    if a.DoStart? {
      StartStepGood(s, a);
    } else if a.DoAnswer? || a.DoDrop? {
      WorkerStepGood(s, a);
    } else if a.DoJudgeCall? || a.DoLeaveCall? || a.DoAbort? || a.DoReturn? {
      InnerStepGood(s, a);
    } else {
      OuterStepGood(s, a);
    }
  }

  lemma {:induction false} RunGood(s: Codex, steps: seq<Step>, t: Codex)
    requires Good(s) && Runs(s, steps, t)
    ensures Good(t)
    decreases |steps|
  {
    if steps != [] {
      StepGood(s, steps[0]);
      RunGood(Next(s, steps[0]), steps[1..], t);
    }
  }

  lemma StartIsGood()
    ensures Good(START)
  {
    P.EmptyHolds();
    assert Norm(Bound(START)) == EMPTY;
  }

  // ---------------------------------------------------------------- main results

  // Writer and reader agree.
  lemma WrittenIsAccepted(steps: seq<Step>, t: Codex)
    requires Runs(START, steps, t)
    ensures t.file.Some? ==> BookAccepted(t.file.value)
  {
    StartIsGood();
    RunGood(START, steps, t);
  }

  // A new adapter over any file a run left behind restores under its own thread:
  // every entry is settled with decided children, and nothing is given back.
  lemma RestoreGivesNothingBack(steps: seq<Step>, s: Codex, root: string)
    requires Runs(START, steps, s) && !s.restored && !s.failed && s.file.Some? && s.file.value.root == root
    ensures var t := Restore(s, root, true, Stored);
      && t.restored && !t.failed && t.revoked && t.file == t.book
      && t.reviews.parentTurn == s.file.value.turn && t.reviews.used == s.file.value.used
      && t.reviews.seen == s.file.value.seen
      && (forall c | c in t.book.value.calls ::
         t.book.value.calls[c].settled && AllTerminal(t.book.value.calls[c].record))
      && (forall call, names, admitted :: !MayCall(t, call, names, admitted))
      && (t.reviews.parent == s.file.value.turn ==> !MayBeginTurn(t, root))
  {
    StartIsGood();
    RunGood(START, steps, s);
    RestoreStored(s, root, s.file.value);
    SettledBookOk(s.file.value, s.reviews.granted);
  }

  // Over all crashes and restores: two experts per turn, each asked once, no child
  // asked twice, and one verdict per child.
  lemma BudgetSurvives(steps: seq<Step>, t: Codex)
    requires Runs(START, steps, t)
    ensures forall turn :: |P.AskedIn(t.reviews.asked, turn)| <= 2
    ensures forall k, l | 0 <= k < l < |t.reviews.asked| ::
      t.reviews.asked[k].id != t.reviews.asked[l].id
      && (t.reviews.asked[k].turn != t.reviews.asked[l].turn || t.reviews.asked[k].expert != t.reviews.asked[l].expert)
    ensures OneVerdict(t.reviews.told)
  {
    StartIsGood();
    RunGood(START, steps, t);
    P.AskedWithinBudget(Norm(Bound(t)));
  }
}
